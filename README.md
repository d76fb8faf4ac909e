# Marbitz Battlebot — a verified model of its challenge and score logic

Marbitz Battlebot is a Telegram bot. One user challenges another with
`/challenge @name`, optionally wagers marbles, and the challenged user accepts
or declines. An accepted battle gets a random story and a random winner, and
the result is recorded in an overall leaderboard and in a weekly one that
resets itself once a week.

This project models the core of that bot in Dafny and proves properties of
the model:

- **`ChallengeStore`** (`challenge_store.dfy`) is the `ChallengeManager`: a
  class holding
  - the table of active challenges (a map from challenge ID to record);
  - the ID counter;
  - the last table written to disk.
  It covers:
  - counter recovery on load;
  - create, get, update, remove and find;
  - the expiry sweep;
  - the read-only accessors.
- **`Leaderboard`** (`leaderboard.dfy`) is the score engine:
  - settling a battle into a table;
  - conservation of wins, losses and marbles;
  - the weekly-reset rule;
  - the ranking and the rows shown;
  - the `Leaderboards` class, which holds the overall table, the weekly table
    and the reset record.
- **`Battle`** (`battle.dfy`) holds the winner choice and the five battle
  stories.
- **`Handlers`** (`handlers.dfy`) holds the decisions of the conversational
  command handlers. Each handler is a transition on the store, the session
  (`context.user_data`) and the leaderboards.
- **`SimpleHandlers`** (`simple_handlers.dfy`) holds the simplified
  challenge and response handlers.
- **`Text`** (`text.dfy`) and **`Wrappers`** (`wrappers.dfy`) hold the Python
  string operations the bot relies on and an `Option` type.

Conventions:

- **Time.** Time is a parameter: `now` is local wall-clock time in whole
  seconds since 1970-01-01 00:00, a Thursday.
  - A calendar date is `now / 86400`.
  - `timedelta.days` is the floor of the difference in days.
  - A stored challenge timestamp is `Option<int>`. `None` stands for a
    missing or unparseable timestamp.
- **Randomness.** Random draws are inputs: `coin` picks the winner and
  `choice` picks the story.
- **Failed writes.** A failed write is an input too:
  - `saveOk` for the challenges file;
  - the set `faults` for the three leaderboard documents.
- **Usernames.** A Telegram username is `Option<string>`. `None` and `""`
  are both "no username", exactly as the handlers test it.

The model follows the code as written. In particular:

- **The store validates nothing.** It rejects neither self-challenges nor
  duplicates, and it never writes a `status` field.
- **No rollback.** Nothing is rolled back when a battle fails.
- **No normalisation.** Usernames are stored as typed, apart from the
  leading '@'s that `/challenge` removes. Comparisons ignore case only.
- **No duplicate check on the conversational path.** The conversational
  `/challenge` creates a challenge without checking for an existing one.
  Only the simplified handler refuses a second challenge.
- **Settlement never happens in the conversational accept handler.** That
  handler cannot settle a battle as written; see Findings.

## Model

| member | source | states |
|---|---|---|
| `ChallengeStore.RecoverCounter` | marbitz_battlebot/state.py:57-60 | the recovered counter is at least the numeric suffix of every `challenge_<digits>` key, and is 0 or the suffix of some key |
| `ChallengeStore.SuffixOfId` | marbitz_battlebot/state.py:89-90 | the suffix read back from `challenge_<n>` is `n` |
| `ChallengeStore.IdForInjective` | marbitz_battlebot/state.py:89-90 | different counter values give different IDs |
| `ChallengeStore.NextIdFresh` | marbitz_battlebot/state.py:89-92 | when no key's suffix exceeds the counter, the next ID is not in the table |
| `ChallengeStore.ChallengeManager.constructor` | marbitz_battlebot/state.py:39-66 | loading adopts the stored table and establishes the counter bound |
| `ChallengeStore.ChallengeManager.SaveState` | marbitz_battlebot/state.py:68-74 | a successful write records the table; a failed one is swallowed and leaves the file as it was |
| `ChallengeStore.ChallengeManager.CreateChallenge` | marbitz_battlebot/state.py:88-102 | the counter goes up by one; the ID is `challenge_<counter>` and was not in use; exactly that entry is added, with the given fields, timestamp `now` and nothing else |
| `ChallengeStore.ChallengeManager.GetChallenge` | marbitz_battlebot/state.py:114-115 | returns the stored record, or `None` exactly when the ID is absent |
| `ChallengeStore.ChallengeManager.UpdateChallenge` | marbitz_battlebot/state.py:128-137 | absent ID: false and nothing changes; present ID: true, the supplied fields are overwritten in that record only |
| `ChallengeStore.MergeNoChange` | marbitz_battlebot/state.py:134 | an update with no fields leaves the record unchanged |
| `ChallengeStore.MergeIdempotent` | marbitz_battlebot/state.py:134 | applying the same update twice equals applying it once |
| `ChallengeStore.MergeCompose` | marbitz_battlebot/state.py:134 | two successive updates equal one update with the second laid over the first |
| `ChallengeStore.ChallengeManager.RemoveChallenge` | marbitz_battlebot/state.py:150-158 | returns whether the ID was present; only that key is deleted; the counter never decreases |
| `ChallengeStore.RemoveTwice` | marbitz_battlebot/state.py:150-158 | a second removal of the same ID returns false |
| `ChallengeStore.ChallengeManager.FindUserChallenge` | marbitz_battlebot/state.py:171-175 | a returned ID's challenger matches ignoring case; `None` only when no stored challenger matches |
| `ChallengeStore.ChallengeManager.CleanupExpiredChallenges` | marbitz_battlebot/state.py:177-207 | removes exactly the records older than `h` hours (24 unless given) or without a usable timestamp; returns their IDs without repeats; keeps the rest untouched; writes only if something was removed |
| `ChallengeStore.SweepPartitions` | marbitz_battlebot/state.py:187-200 | removed and kept IDs partition the table |
| `ChallengeStore.SweepIdempotent` | marbitz_battlebot/state.py:187-200 | a second sweep at the same instant finds nothing to remove |
| `ChallengeStore.CleanupTwice` | marbitz_battlebot/state.py:194-207 | the second of two sweeps at the same instant returns an empty list |
| `ChallengeStore.ChallengeManager.GetAllChallenges` | marbitz_battlebot/state.py:216-218 | returns a table equal to the stored one |
| `ChallengeStore.ChallengeManager.GetChallengeCount` | marbitz_battlebot/state.py:227-228 | the count is the number of stored challenges |
| `ChallengeStore.ChallengeManager.GetChallengeCounter` | marbitz_battlebot/state.py:237-238 | returns the current counter |
| `Battle.GenerateBattleStory` | marbitz_battlebot/battle.py:166-219 | the chosen scenario has three phases; its setup names `@challenger` and `@challenged`; phase 1 names the challenger and phase 2 the challenged user |
| `Battle.FillShowsNames` | marbitz_battlebot/battle.py:176-217 | filling a scenario with two names puts the first in the setup and first phase and the second in the setup and second phase |
| `Battle.DetermineWinner` | marbitz_battlebot/battle.py:221-235 | the winner is one of the two; for distinct names the loser is the other one; for identical names winner and loser coincide |
| `Battle.EitherMayWin` | marbitz_battlebot/battle.py:231-232 | each outcome of the draw makes a different participant win |
| `Leaderboard.InitUsers` | marbitz_battlebot/leaderboard.py:100-103 | missing users get a zero record and every existing record is kept |
| `Leaderboard.RecordBattle` | marbitz_battlebot/leaderboard.py:106-115 | the in-place increments produce exactly the reference settlement |
| `Leaderboard.SettledEntries` | marbitz_battlebot/leaderboard.py:106-115 | winner: +1 win and +wager; loser: +1 loss and −wager; every other user unchanged |
| `Leaderboard.SelfBattleKeepsMarbles` | marbitz_battlebot/leaderboard.py:106-115 | a user recorded as both winner and loser gains one win and one loss and keeps their marbles |
| `Leaderboard.SettleTotals` | marbitz_battlebot/leaderboard.py:106-115 | a settlement raises total wins and total losses by one and keeps total marbles |
| `Leaderboard.ReplayTotals` | marbitz_battlebot/leaderboard.py:100-115 | a table built only from settlements has wins = losses = number of battles and marbles summing to 0 |
| `Leaderboard.WeekdayPeriodic` | marbitz_battlebot/leaderboard.py:30-31 | the weekday name repeats every seven days |
| `Leaderboard.ResetWithoutHistory` | marbitz_battlebot/leaderboard.py:33-55 | with no last reset, or an unparseable one, a reset is due exactly on the reset day |
| `Leaderboard.BlankNeverResets` | marbitz_battlebot/leaderboard.py:37-57 | a falsy but present last reset (an empty string) never triggers a reset |
| `Leaderboard.NotDueAgainSameDay` | marbitz_battlebot/leaderboard.py:42-51 | after a reset, no further reset is due later the same calendar day |
| `Leaderboard.DueAfterSevenDays` | marbitz_battlebot/leaderboard.py:49-51 | seven whole days after the last reset a reset is due, whatever the weekday |
| `Leaderboard.DueOnNextResetDay` | marbitz_battlebot/leaderboard.py:42-47 | on the reset day, a week or more of dates after the last reset, a reset is due |
| `Leaderboard.NotDueWithinWeek` | marbitz_battlebot/leaderboard.py:42-57 | off the reset day and within seven days of the last reset, no reset is due |
| `Leaderboard.ResetIdempotent` | marbitz_battlebot/leaderboard.py:65-73 | after a completed reset, the rule says no at the same instant, and a repeat attempt leaves the weekly table empty |
| `Leaderboard.Leaderboards.ResetWeeklyLeaderboard` | marbitz_battlebot/leaderboard.py:59-81 | when due, clears the weekly table and then stamps `now`; returns true only when both writes succeed; the overall table is untouched |
| `Leaderboard.Leaderboards.UpdateLeaderboard` | marbitz_battlebot/leaderboard.py:83-124 | runs a due reset first, then settles the battle into the overall table and then the weekly one; fails as soon as a write fails |
| `Leaderboard.Leaderboards.GetUserStats` | marbitz_battlebot/leaderboard.py:167-182 | each table's stored record by exact key, or zeros when absent |
| `Leaderboard.Leaderboards.constructor` | marbitz_battlebot/storage.py:82-89 | a missing reset document reads as Monday, never reset |
| `Leaderboard.RanksAboveTotal` | marbitz_battlebot/leaderboard.py:141-149 | any two records are comparable by (wins, win rate, marbles) |
| `Leaderboard.RanksAboveTransitive` | marbitz_battlebot/leaderboard.py:141-149 | the ranking order is transitive, with win rates compared by cross-multiplication |
| `Leaderboard.InsertUser` | marbitz_battlebot/leaderboard.py:141-149 | insertion adds exactly the one user |
| `Leaderboard.InsertSorted` | marbitz_battlebot/leaderboard.py:141-149 | insertion into a ranking gives a ranking |
| `Leaderboard.SortUsers` | marbitz_battlebot/leaderboard.py:141-149 | the result is a permutation of the users in descending (wins, win rate, marbles) order |
| `Leaderboard.Users` | marbitz_battlebot/leaderboard.py:142 | every user of the table exactly once |
| `Leaderboard.RankingLeader` | marbitz_battlebot/leaderboard.py:141-152 | the first user of a ranking ranks at or above every user of the table |
| `Leaderboard.Shown` | marbitz_battlebot/leaderboard.py:152 | at most ten rows, fewer only when the table is smaller |
| `Leaderboard.RowShowsUser` | marbitz_battlebot/leaderboard.py:159-160 | a row contains `@user` and `"{wins}W-{losses}L"` |
| `Leaderboard.RowsShowUser` | marbitz_battlebot/leaderboard.py:151-160 | every listed user's name and record appear in the rows |
| `Leaderboard.BoardShowsUsers` | marbitz_battlebot/leaderboard.py:151-160 | the same, under the title |
| `Leaderboard.AppendRows` | marbitz_battlebot/leaderboard.py:151-160 | the loop appends exactly the numbered rows of the listed users |
| `Leaderboard.FormatLeaderboard` | marbitz_battlebot/leaderboard.py:126-165 | empty table: the "No battles yet!" text; otherwise the title and the first ≤ 10 users of a ranking of the whole table, each row naming the user and `"{wins}W-{losses}L"` |
| `Text.SplitMax` | marbitz_battlebot/handlers.py:115 | at most `maxsplit` cuts at the first separators; the parts join back to the input |
| `Text.ParseNatToString` | marbitz_battlebot/handlers.py:172 | `int(str(n)) == n` |
| `Handlers.DecideChallenge` | marbitz_battlebot/handlers.py:71-84 | a challenge is created iff there is an argument and a username and the target (leading '@'s removed) differs from the challenger ignoring case |
| `Handlers.ChallengeCommand` | marbitz_battlebot/handlers.py:69-108 | a rejected command changes nothing; otherwise exactly one fresh challenge with wager 0 is created, with no existing-challenge check; the session records it |
| `Handlers.ParseWagerCallback` | marbitz_battlebot/handlers.py:115-121 | fewer than three parts is an error; otherwise the data is `kind_action_id` |
| `Handlers.WagerYesRoundTrip` | marbitz_battlebot/handlers.py:97 | the "yes" button asks for an amount |
| `Handlers.WagerNoRoundTrip` | marbitz_battlebot/handlers.py:98 | the "no" button names its challenge ID, even when the ID contains '_' |
| `Handlers.WagerCallback` | marbitz_battlebot/handlers.py:110-154 | "yes" asks for the amount; any other action sets wager 0 on an existing challenge, or ends when it is gone |
| `Handlers.ClassifyWager` | marbitz_battlebot/handlers.py:162-181 | trimmed, lower-cased "cancel" cancels; an amount is accepted only when it parses as an integer in 1..1000 |
| `Handlers.WagerAmountRoundTrip` | marbitz_battlebot/handlers.py:171-178 | every amount 1..1000 typed in decimal is accepted as itself |
| `Handlers.SetWagerInPlace` | marbitz_battlebot/handlers.py:196-197 | the stored record's wager changes in memory |
| `Handlers.WagerAmountHandler` | marbitz_battlebot/handlers.py:156-213 | "cancel" removes the session's challenge and clears the session; invalid input changes nothing; a valid amount is set on the existing challenge without writing the file |
| `Handlers.ParseResponse` | marbitz_battlebot/handlers.py:222-228 | the data splits at its first '_' into action and ID |
| `Handlers.ResponseButtonsRoundTrip` | marbitz_battlebot/handlers.py:199-201 | the accept and decline buttons parse back to their action and ID |
| `Handlers.Judge` | marbitz_battlebot/handlers.py:222-286 | the checks in order: bad data, unknown ID, unauthorised clicker, then accept or any other action as decline |
| `Handlers.ChallengedMayAccept` | marbitz_battlebot/handlers.py:249-253 | the challenged user, in any capitalisation, can accept or decline |
| `Handlers.OthersMayNotRespond` | marbitz_battlebot/handlers.py:249-277 | any other clicker, or one without a username, is turned away |
| `Handlers.ChallengeResponseCallback` | marbitz_battlebot/handlers.py:215-352 | as written: unauthorised leaves everything and stays in CHALLENGE_CONFIRMATION; decline removes and ends; accept removes, clears the session and raises before settling |
| `Handlers.AcceptedBattleIsLost` | marbitz_battlebot/handlers.py:292-306 | one concrete accept: the challenge is gone, the handler raises, and the leaderboards stay empty |
| `Handlers.ChallengeResponseSettled` | marbitz_battlebot/handlers.py:286-334 | corrected: accept removes the challenge, then settles both tables with the stored wager and a winner from the two participants |
| `Handlers.AcceptedBattleIsSettled` | marbitz_battlebot/handlers.py:316-320 | the same concrete accept, corrected, records the winner's win and 50 marbles in both tables |
| `Handlers.NoResetOnThursday` | marbitz_battlebot/leaderboard.py:30-35 | the default Monday reset is not due on a Thursday |
| `Handlers.CancelChallengeCommand` | marbitz_battlebot/handlers.py:354-383 | removes exactly the caller's challenge that was found, and clears the session only if it belongs to the caller; otherwise changes nothing |
| `Handlers.CancelConversation` | marbitz_battlebot/handlers.py:441-449 | removes the session's challenge, if any, clears the session and ends |
| `SimpleHandlers.SimpleGuards` | simple_handlers.py:22-52 | guards in order: argument, username, non-empty stripped target, not self; a target that passes is non-empty and not the challenger |
| `SimpleHandlers.SimpleChallengeCommand` | simple_handlers.py:16-94 | refuses a challenger who already has a challenge; otherwise creates exactly one challenge with wager 0; preserves "at most one challenge per challenger" |
| `SimpleHandlers.AddKeepsOnePerChallenger` | simple_handlers.py:55-65 | adding a challenge for a challenger who has none keeps at most one challenge per challenger |
| `SimpleHandlers.SecondChallengeRefused` | simple_handlers.py:54-61 | a second simple `/challenge` by the same user creates nothing |
| `SimpleHandlers.SimpleChallengeResponse` | simple_handlers.py:96-164 | bad data, an unknown ID or another clicker changes nothing; otherwise the challenge is removed before the branch, and accept names a winner and the other participant as loser without touching the leaderboards |

## Left out

- JSON file I/O (`marbitz_battlebot/storage.py`) is not part of this model.
  - Each stored document is a field; a write is a success or a failure given
    as input.
  - A failed write is modelled as leaving the document unchanged. Opening a
    file for writing truncates it first.
  - A missing or corrupt file reads as empty. Loading then yields an empty
    table. A loaded document that is not a table of records, and the failure
    path of `_load_state` (marbitz_battlebot/state.py:63-66), are not
    modelled.
- The singleton construction and the lock (marbitz_battlebot/state.py:28-49)
  are not modelled. One manager receives sequential calls.
- The module functions of marbitz_battlebot/battle.py:26-93 are not modelled.
  They only forward to that one manager, and the handlers here call the
  manager's methods directly. The earlier duplicate definitions of the story
  and winner functions are shadowed by the later ones, which are the ones
  modelled.
- The clock, `random.choice` and `random.uniform` are inputs. The pacing
  sleeps, every message sent to the chat, and the Telegram and asyncio
  plumbing are not modelled.
- The wall clock and time zones are simplified.
  - ISO-8601 timestamps are whole seconds of local time.
  - A stored challenge timestamp with a UTC offset, or one that is not a
    string, makes the real sweep raise. Here it is either a readable instant
    or `None`.
  - A `last_reset` with a UTC offset is treated as unparseable.
  - Weekday names are the English ones.
- Python text semantics are ASCII-only.
  - `lower()` folds only ASCII letters.
  - `isdigit()` and `int()` accept only ASCII digits, so non-ASCII digits are
    not modelled. In the counter recovery, some of them make loading fail.
  - `strip()` uses Python's full whitespace set.
- Floating point is not modelled. The `.1f` win-rate percentage in leaderboard
  rows and in `/stats` is left out, and win rates are compared exactly by
  cross-multiplication.
- `/start`, `/help`, `/leaderboard`, `/weekly`, `/stats` and `/my_stats` only
  format replies and are not modelled. The entry scripts and tests are not
  part of this model.
- `format_leaderboard`'s error branch is not modelled: it answers malformed
  entries, which the typed tables cannot hold.
- `Leaderboard.FormatLeaderboard` does not fix the order of users whose sort
  keys are equal. The bot's stable sort keeps the file's insertion order,
  which a map does not record.
- `ChallengeStore.ChallengeManager.FindUserChallenge` returns some matching ID
  rather than the first one in insertion order, for the same reason.
- `ChallengeStore.ChallengeManager.CleanupExpiredChallenges` fixes which IDs
  it returns, each once, but not their order. The bot lists them in the
  table's insertion order, which a map does not record.
- `Leaderboard.Leaderboards.UpdateLeaderboard` takes one set of failing
  documents per call. The reset's write of the weekly table and the
  settlement's write of it therefore fail or succeed together, although the
  bot performs them as separate writes.
- Every challenge record has a challenger, a challenged user and a wager. A
  stored record missing `challenger_user`, `challenged_user` or
  `wager_amount` makes the handlers raise `KeyError`
  (marbitz_battlebot/handlers.py:136, 193, 287 and 337; simple_handlers.py:126).
  Only `find_user_challenge` tolerates a missing challenger, reading it as "".
  The model cannot hold such a record.
- `Handlers.ChallengeResponseCallback` does not model what the conversation
  framework does after the handler raises. The outcome is reported as
  `Raised`.

## Findings

| source | as written | input that shows it | evidently intended | confidence | as-written member | corrected member |
|---|---|---|---|---|---|---|
| marbitz_battlebot/handlers.py:306 | `random.uniform` is called, but the module never imports `random`. The accept branch raises `NameError` at its first pause, after the challenge was removed (line 292) and the session cleared, so the winner is never determined and `update_leaderboard` is never called. | the challenged user presses "Accept" on any live challenge | pause, pick the winner and settle both leaderboards with the stored wager (lines 316-320) | not executed | `Handlers.ChallengeResponseCallback` | `Handlers.ChallengeResponseSettled` |
