/**
 * The decisions of the conversational command handlers: `/challenge`, the
 * wager buttons, the typed wager amount, the accept/decline buttons,
 * `/cancel_challenge` and the conversation fallback. Messages sent to the
 * chat are dropped; what remains is the conversation state returned, the
 * per-user session data and the changes made to the challenge store and
 * the leaderboards.
 *
 * A Telegram username is `Option<string>`: absent (`None`) and empty are
 * both "no username", as the handlers test it for truth.
 */
module Handlers {
  import opened Wrappers
  import opened Text
  import opened ChallengeStore
  import opened Leaderboard
  import opened Battle

  /** The conversation states; `End` is `ConversationHandler.END`. */
  datatype ConvState = End | WagerAmount | ChallengeConfirmation

  /** How a handler finishes: returning a state, or raising an exception. */
  datatype Exit = Returned(state: ConvState) | Raised(error: string)

  /**
   * `context.user_data`: the pending challenge's ID, both usernames and
   * the challenger's numeric Telegram ID, each present or not.
   */
  datatype Session = Session(
    challengeId: Option<string>,
    challenger: Option<string>,
    challenged: Option<string>,
    challengerId: Option<int>)

  const EmptySession := Session(None, None, None, None)

  /** Python truth of an optional string: present and non-empty. */
  predicate Truthy(s: Option<string>) {
    s.Some? && s.value != ""
  }

  // ---------------------------------------------------------------------
  // /challenge
  // ---------------------------------------------------------------------

  datatype ChallengeDecision = Usage | NeedUsername | SelfChallenge | Create(challenger: string, challenged: string)

  /**
   * The guards of `challenge_command`: an argument is needed, then a
   * username; the target is the argument without its leading '@'s and may
   * not be the challenger, ignoring case. Nothing else is checked.
   */
  function DecideChallenge(args: seq<string>, username: Option<string>): (d: ChallengeDecision)
    ensures d.Create? <==> |args| > 0 && Truthy(username) && !SameName(LStrip(args[0], '@'), username.value)
    ensures d.Create? ==> d.challenger == username.value && !SameName(d.challenger, d.challenged)
    ensures d.Create? ==> (d.challenged == [] || d.challenged[0] != '@') && IsInfix(d.challenged, args[0])
  {
    if |args| == 0 then Usage
    else if !Truthy(username) then NeedUsername
    else
      var target := LStrip(args[0], '@');
      if SameName(target, username.value) then SelfChallenge
      else
        LStripInfix(args[0], '@');
        Create(username.value, target)
  }

  /**
   * `challenge_command`: a rejected command changes nothing; otherwise a
   * fresh challenge with no wager is stored, the session records it and
   * the conversation waits for the wager decision.
   */
  method ChallengeCommand(m: ChallengeManager, session: Session, args: seq<string>,
                          username: Option<string>, userId: int, now: int, saveOk: bool)
    returns (next: ConvState, session': Session)
    requires m.Valid()
    modifies m
    ensures m.Valid()
    ensures !DecideChallenge(args, username).Create? ==> next == End && session' == session && unchanged(m)
    ensures DecideChallenge(args, username).Create? ==>
      var d := DecideChallenge(args, username);
      var id := IdFor(m.counter);
      && next == WagerAmount
      && m.counter == old(m.counter) + 1
      && id !in old(m.challenges)
      && m.challenges == old(m.challenges)[id := Challenge(d.challenger, d.challenged, 0, Some(now), map[])]
      && session' == Session(Some(id), Some(d.challenger), Some(d.challenged), Some(userId))
      && m.persisted == if saveOk then m.challenges else old(m.persisted)
  {
    var d := DecideChallenge(args, username);
    if !d.Create? {
      return End, session;
    }
    var id := m.CreateChallenge(d.challenger, d.challenged, 0, now, saveOk);
    session' := Session(Some(id), Some(d.challenger), Some(d.challenged), Some(userId));
    next := WagerAmount;
  }

  // ---------------------------------------------------------------------
  // Wager buttons
  // ---------------------------------------------------------------------

  datatype WagerChoice = BadWagerData | AskAmount | NoWager(id: string)

  /**
   * `data.split("_", 2)`: fewer than three parts is an error; a second
   * part "yes" asks for an amount; anything else means no wager on the
   * challenge named by the third part, which keeps any further '_'.
   */
  function ParseWagerCallback(data: string): (c: WagerChoice)
    ensures c.BadWagerData? <==> |SplitMax(data, '_', 2)| < 3
    ensures c.AskAmount? ==> var p := SplitMax(data, '_', 2);
      '_' !in p[0] && p[1] == "yes" && data == p[0] + "_" + p[1] + "_" + p[2]
    ensures c.NoWager? ==> var p := SplitMax(data, '_', 2);
      '_' !in p[0] && '_' !in p[1] && p[1] != "yes" && data == p[0] + "_" + p[1] + "_" + c.id
  {
    var parts := SplitMax(data, '_', 2);
    if |parts| < 3 then BadWagerData
    else
      JoinThree(parts, '_');
      if parts[1] == "yes" then AskAmount
      else NoWager(parts[2])
  }

  /** The wager button `challenge_command` offers parses back as a request for an amount. */
  lemma WagerYesRoundTrip(id: string)
    ensures ParseWagerCallback("wager_yes_" + id) == AskAmount
  {
    SplitAtFirst("yes", '_', id, 0);
    assert "yes_" + id == "yes" + ['_'] + id;
    SplitAtFirst("wager", '_', "yes_" + id, 1);
    assert "wager_yes_" + id == "wager" + ['_'] + ("yes_" + id);
    assert SplitMax("wager_yes_" + id, '_', 2) == ["wager", "yes", id];
  }

  /** The no-wager button parses back with its challenge ID, whatever that ID contains. */
  lemma WagerNoRoundTrip(id: string)
    ensures ParseWagerCallback("wager_no_" + id) == NoWager(id)
  {
    SplitAtFirst("no", '_', id, 0);
    assert "no_" + id == "no" + ['_'] + id;
    SplitAtFirst("wager", '_', "no_" + id, 1);
    assert "wager_no_" + id == "wager" + ['_'] + ("no_" + id);
    assert SplitMax("wager_no_" + id, '_', 2) == ["wager", "no", id];
  }

  /**
   * `wager_callback`: "yes" moves to the amount prompt; otherwise an
   * existing challenge gets wager 0 and awaits the answer, and a missing
   * one ends the conversation. Nothing else changes.
   */
  method WagerCallback(m: ChallengeManager, data: string, saveOk: bool) returns (next: ConvState)
    requires m.Valid()
    modifies m
    ensures m.Valid()
    ensures m.counter == old(m.counter)
    ensures ParseWagerCallback(data).BadWagerData? ==> next == End && m.challenges == old(m.challenges)
    ensures ParseWagerCallback(data).AskAmount? ==> next == WagerAmount && m.challenges == old(m.challenges)
    ensures ParseWagerCallback(data).NoWager? ==>
      var id := ParseWagerCallback(data).id;
      && (next == if id in old(m.challenges) then ChallengeConfirmation else End)
      && m.challenges == if id in old(m.challenges) then old(m.challenges)[id := old(m.challenges)[id].(wager := 0)] else old(m.challenges)
    ensures m.persisted ==
      var c := ParseWagerCallback(data);
      if c.NoWager? && c.id in old(m.challenges) && saveOk then m.challenges else old(m.persisted)
  {
    var choice := ParseWagerCallback(data);
    match choice
    case BadWagerData =>
      return End;
    case AskAmount =>
      return WagerAmount;
    case NoWager(id) =>
      var c := m.GetChallenge(id);
      if c.None? {
        return End;
      }
      var patch := Patch(None, None, Some(0), None, map[]);
      assert c.value.extra + patch.extra == c.value.extra;
      var _ := m.UpdateChallenge(id, patch, saveOk);
      next := ChallengeConfirmation;
  }

  // ---------------------------------------------------------------------
  // Typed wager amount
  // ---------------------------------------------------------------------

  /** The largest wager accepted. */
  const MaxWager := 1000

  datatype WagerInput = NoText | Cancel | NotANumber | NotPositive | OverLimit | Amount(n: int)

  /**
   * The classification of `wager_amount_handler`'s input: the message
   * text is stripped and lower-cased; "cancel" cancels; otherwise it must
   * read as an integer between 1 and `MaxWager`.
   */
  function ClassifyWager(text: Option<string>): (w: WagerInput)
    ensures w.NoText? <==> !Truthy(text)
    ensures w.Cancel? <==> Truthy(text) && Lower(Strip(text.value)) == "cancel"
    ensures w.Amount? ==> 1 <= w.n <= MaxWager && ParsePyInt(Lower(Strip(text.value))) == Some(w.n)
    ensures w.NotANumber? ==> ParsePyInt(Lower(Strip(text.value))).None?
    ensures w.NotPositive? ==> ParsePyInt(Lower(Strip(text.value))).Some? && ParsePyInt(Lower(Strip(text.value))).value <= 0
    ensures w.OverLimit? ==> ParsePyInt(Lower(Strip(text.value))).Some? && ParsePyInt(Lower(Strip(text.value))).value > MaxWager
  {
    if !Truthy(text) then NoText
    else
      var t := Lower(Strip(text.value));
      if t == "cancel" then Cancel
      else match ParsePyInt(t)
        case None => NotANumber
        case Some(n) => if n <= 0 then NotPositive else if n > MaxWager then OverLimit else Amount(n)
  }

  /** Every amount from 1 to `MaxWager`, typed in decimal, is accepted as itself. */
  lemma WagerAmountRoundTrip(n: nat)
    requires 1 <= n <= MaxWager
    ensures ClassifyWager(Some(NatToString(n))) == Amount(n)
  {
    var s := NatToString(n);
    DigitsUnchanged(s);
    ParseNatToString(n);
    assert s[0] != 'c';
  }

  /**
   * The in-place update at `challenge_data['wager_amount'] = …`: the dict
   * returned by `get_challenge` is the stored one, so the table changes
   * but nothing is written to the file.
   */
  method SetWagerInPlace(m: ChallengeManager, id: string, amount: int)
    requires m.Valid() && id in m.challenges
    modifies m`challenges
    ensures m.Valid()
    ensures m.challenges == old(m.challenges)[id := old(m.challenges)[id].(wager := amount)]
  {
    m.challenges := m.challenges[id := m.challenges[id].(wager := amount)];
  }

  /**
   * `wager_amount_handler`. "cancel" removes the session's challenge (if
   * the session names one) and clears the session. An invalid amount keeps
   * asking and changes nothing. A valid amount needs the session's
   * challenge to exist; it is then set in memory only and the conversation
   * awaits the answer.
   */
  method WagerAmountHandler(m: ChallengeManager, session: Session, text: Option<string>, saveOk: bool)
    returns (next: ConvState, session': Session)
    requires m.Valid()
    modifies m
    ensures m.Valid()
    ensures m.counter == old(m.counter)
    ensures ClassifyWager(text).Cancel? ==>
      && next == End && session' == EmptySession
      && m.challenges == (if session.challengeId.Some? then old(m.challenges) - {session.challengeId.value} else old(m.challenges))
      && m.persisted == if session.challengeId.Some? && session.challengeId.value in old(m.challenges) && saveOk then m.challenges else old(m.persisted)
    ensures !ClassifyWager(text).Cancel? ==> m.persisted == old(m.persisted)
    ensures !ClassifyWager(text).Cancel? && !ClassifyWager(text).Amount? ==>
      next == WagerAmount && session' == session && m.challenges == old(m.challenges)
    ensures ClassifyWager(text).Amount? ==>
      && session' == session
      && if Truthy(session.challengeId) && session.challengeId.value in old(m.challenges) then
           var id := session.challengeId.value;
           && next == ChallengeConfirmation
           && m.challenges == old(m.challenges)[id := old(m.challenges)[id].(wager := ClassifyWager(text).n)]
         else next == End && m.challenges == old(m.challenges)
  {
    var input := ClassifyWager(text);
    session' := session;
    match input
    case Cancel =>
      if session.challengeId.Some? {
        var _ := m.RemoveChallenge(session.challengeId.value, saveOk);
      }
      return End, EmptySession;
    case Amount(n) =>
      if !Truthy(session.challengeId) {
        return End, session;
      }
      var id := session.challengeId.value;
      var c := m.GetChallenge(id);
      if c.None? {
        return End, session;
      }
      SetWagerInPlace(m, id, n);
      next := ChallengeConfirmation;
    case _ =>
      next := WagerAmount;
  }

  // ---------------------------------------------------------------------
  // Accept / decline buttons
  // ---------------------------------------------------------------------

  datatype ResponseData = BadResponseData | Response(action: string, id: string)

  /** `data.split("_", 1)`: the action before the first '_', the ID after it. */
  function ParseResponse(data: string): (r: ResponseData)
    ensures r.BadResponseData? <==> '_' !in data
    ensures r.Response? ==> '_' !in r.action && data == r.action + "_" + r.id
  {
    var parts := SplitMax(data, '_', 1);
    if |parts| < 2 then BadResponseData
    else
      assert JoinWith(parts, '_') == parts[0] + "_" + parts[1];
      Response(parts[0], parts[1])
  }

  /** The accept and decline buttons parse back to their action and ID. */
  lemma ResponseButtonsRoundTrip(id: string)
    ensures ParseResponse("accept_" + id) == Response("accept", id)
    ensures ParseResponse("decline_" + id) == Response("decline", id)
  {
    SplitAtFirst("accept", '_', id, 0);
    assert "accept_" + id == "accept" + ['_'] + id;
    SplitAtFirst("decline", '_', id, 0);
    assert "decline_" + id == "decline" + ['_'] + id;
  }

  /**
   * Who may answer a challenge: a clicker with a username equal, ignoring
   * case, to the challenged user stored in the record.
   */
  predicate MayRespond(clicker: Option<string>, challenged: string) {
    Truthy(clicker) && SameName(clicker.value, challenged)
  }

  datatype Verdict =
    | Malformed
    | Inactive(id: string)
    | Unauthorised(id: string)
    | Accepted(id: string, challenge: Challenge)
    | Declined(id: string, challenge: Challenge)

  /**
   * The checks both response handlers make before acting, in their order:
   * the data must split, the challenge must exist, the clicker must be
   * the challenged user. Then "accept" accepts and any other action
   * declines.
   */
  function Judge(table: map<string, Challenge>, data: string, clicker: Option<string>): (v: Verdict)
    ensures v.Malformed? <==> '_' !in data
    ensures v.Inactive? ==> v.id !in table && data == ParseResponse(data).action + "_" + v.id
    ensures v.Unauthorised? ==> v.id in table && !MayRespond(clicker, table[v.id].challenged)
    ensures v.Accepted? || v.Declined? ==>
      v.id in table && v.challenge == table[v.id] && MayRespond(clicker, v.challenge.challenged)
    ensures v.Accepted? ==> data == "accept_" + v.id
    ensures v.Declined? ==> data != "accept_" + v.id && ParseResponse(data).id == v.id
  {
    match ParseResponse(data)
    case BadResponseData => Malformed
    case Response(action, id) =>
      if id !in table then Inactive(id)
      else if !MayRespond(clicker, table[id].challenged) then Unauthorised(id)
      else if action == "accept" then Accepted(id, table[id])
      else Declined(id, table[id])
  }

  /** The challenged user, under any capitalisation, can accept through the accept button. */
  lemma ChallengedMayAccept(table: map<string, Challenge>, id: string, clicker: string)
    requires id in table && clicker != "" && SameName(clicker, table[id].challenged)
    ensures Judge(table, "accept_" + id, Some(clicker)) == Accepted(id, table[id])
    ensures Judge(table, "decline_" + id, Some(clicker)) == Declined(id, table[id])
  {
    ResponseButtonsRoundTrip(id);
  }

  /** Nobody else can answer: every other clicker is turned away. */
  lemma OthersMayNotRespond(table: map<string, Challenge>, data: string, clicker: Option<string>)
    requires ParseResponse(data).Response? && ParseResponse(data).id in table
    requires !MayRespond(clicker, table[ParseResponse(data).id].challenged)
    ensures Judge(table, data, clicker) == Unauthorised(ParseResponse(data).id)
  {
  }

  /**
   * `challenge_response_callback` as written. Bad data or an unknown ID
   * ends the conversation; an unauthorised clicker leaves everything as it
   * was and keeps the buttons live. A decline removes the challenge, clears
   * the session and ends. An accept removes the challenge and clears the
   * session, then raises `NameError` at its first pause (the module never
   * imports `random`): the battle is never settled.
   */
  method ChallengeResponseCallback(m: ChallengeManager, lb: Leaderboards, session: Session,
                                   data: string, clicker: Option<string>, saveOk: bool)
    returns (exit: Exit, session': Session)
    requires m.Valid()
    modifies m
    ensures m.Valid()
    ensures m.counter == old(m.counter) && unchanged(lb)
    ensures var v := Judge(old(m.challenges), data, clicker);
      && ((v.Malformed? || v.Inactive?) ==> exit == Returned(End) && session' == session && m.challenges == old(m.challenges))
      && (v.Unauthorised? ==> exit == Returned(ChallengeConfirmation) && session' == session && m.challenges == old(m.challenges))
      && (v.Declined? ==> exit == Returned(End) && session' == EmptySession && m.challenges == old(m.challenges) - {v.id})
      && (v.Accepted? ==> exit == Raised("NameError") && session' == EmptySession && m.challenges == old(m.challenges) - {v.id})
      && m.persisted == (if (v.Accepted? || v.Declined?) && saveOk then m.challenges else old(m.persisted))
  {
    var v := Judge(m.challenges, data, clicker);
    session' := session;
    match v
    case Malformed =>
      exit := Returned(End);
    case Inactive(_) =>
      exit := Returned(End);
    case Unauthorised(_) =>
      exit := Returned(ChallengeConfirmation);
    case Accepted(id, c) =>
      var _ := m.RemoveChallenge(id, saveOk);
      session' := EmptySession;
      exit := Raised("NameError");
    case Declined(id, _) =>
      var _ := m.RemoveChallenge(id, saveOk);
      session' := EmptySession;
      exit := Returned(End);
  }

  /**
   * `challenge_response_callback` with the pauses working: an accept
   * removes the challenge, clears the session, tells the story of draw
   * `choice`, picks the winner by `coin` and settles both leaderboards
   * with the stored wager; the handler raises if a leaderboard write
   * fails. Every other outcome is as in the handler as written.
   */
  method ChallengeResponseSettled(m: ChallengeManager, lb: Leaderboards, session: Session,
                                  data: string, clicker: Option<string>, saveOk: bool,
                                  choice: nat, coin: bool, now: int, faults: set<Doc>)
    returns (exit: Exit, session': Session, result: Option<(string, string)>)
    requires m.Valid() && choice < |Scenarios|
    modifies m, lb
    ensures m.Valid()
    ensures m.counter == old(m.counter)
    ensures var v := Judge(old(m.challenges), data, clicker);
      && ((v.Malformed? || v.Inactive?) ==> exit == Returned(End) && session' == session && m.challenges == old(m.challenges))
      && (v.Unauthorised? ==> exit == Returned(ChallengeConfirmation) && session' == session && m.challenges == old(m.challenges))
      && (v.Declined? ==> exit == Returned(End) && session' == EmptySession && m.challenges == old(m.challenges) - {v.id})
      && (!v.Accepted? ==> result.None? && unchanged(lb))
      && m.persisted == (if (v.Accepted? || v.Declined?) && saveOk then m.challenges else old(m.persisted))
      && (v.Accepted? ==>
        var c := v.challenge;
        && session' == EmptySession && m.challenges == old(m.challenges) - {v.id}
        && result == Some(DetermineWinner(c.challenger, c.challenged, coin))
        && lb.overall == (if OverallDoc in faults then old(lb.overall) else Settled(old(lb.overall), result.value.0, result.value.1, c.wager))
        && (var cleared := WeeklyAfterReset(old(lb.weekly), old(lb.resetInfo), now, faults);
            lb.weekly == if OverallDoc in faults || WeeklyDoc in faults then cleared else Settled(cleared, result.value.0, result.value.1, c.wager))
        && lb.resetInfo == InfoAfterReset(old(lb.resetInfo), now, faults)
        && exit == (if OverallDoc in faults || WeeklyDoc in faults then Raised("IOError") else Returned(End)))
  {
    var v := Judge(m.challenges, data, clicker);
    session' := session;
    result := None;
    match v
    case Malformed =>
      exit := Returned(End);
    case Inactive(_) =>
      exit := Returned(End);
    case Unauthorised(_) =>
      exit := Returned(ChallengeConfirmation);
    case Accepted(id, c) =>
      var _ := m.RemoveChallenge(id, saveOk);
      session' := EmptySession;
      var _ := GenerateBattleStory(c.challenger, c.challenged, choice);
      var outcome := DetermineWinner(c.challenger, c.challenged, coin);
      var ok := lb.UpdateLeaderboard(outcome.0, outcome.1, c.wager, now, faults);
      result := Some(outcome);
      exit := if ok then Returned(End) else Raised("IOError");
    case Declined(id, _) =>
      var _ := m.RemoveChallenge(id, saveOk);
      session' := EmptySession;
      exit := Returned(End);
  }

  /**
   * The discrepancy, on one concrete run: bob accepts alice's 50-marble
   * challenge; the challenge is gone, the handler raises, and the empty
   * leaderboards record no battle.
   */
  method AcceptedBattleIsLost() returns (exit: Exit, lb: Leaderboards, m: ChallengeManager)
    ensures exit.Raised? && m.challenges == map[]
    ensures lb.overall == map[] && lb.weekly == map[]
  {
    var id := IdFor(1);
    m := new ChallengeManager(map[id := Challenge("alice", "bob", 50, Some(0), map[])]);
    lb := new Leaderboards(map[], map[], None);
    ChallengedMayAccept(m.challenges, id, "bob");
    var session;
    exit, session := ChallengeResponseCallback(m, lb, EmptySession, "accept_" + id, Some("bob"), true);
  }

  /** With the pauses working, the same run settles the battle in both leaderboards. */
  method AcceptedBattleIsSettled(coin: bool) returns (exit: Exit, lb: Leaderboards, m: ChallengeManager)
    ensures exit == Returned(End) && m.challenges == map[]
    ensures var winner := if coin then "alice" else "bob";
      Lookup(lb.overall, winner) == Stats(1, 0, 50) && Lookup(lb.weekly, winner) == Stats(1, 0, 50)
  {
    var id := IdFor(1);
    m := new ChallengeManager(map[id := Challenge("alice", "bob", 50, Some(0), map[])]);
    lb := new Leaderboards(map[], map[], None);
    ChallengedMayAccept(m.challenges, id, "bob");
    NoResetOnThursday();
    var outcome := DetermineWinner("alice", "bob", coin);
    SettledEntries(map[], outcome.0, outcome.1, 50);
    var session, result;
    exit, session, result := ChallengeResponseSettled(m, lb, EmptySession, "accept_" + id, Some("bob"), true, 0, coin, 0, {});
  }

  /** The default weekly board is not reset at the epoch, a Thursday. */
  lemma NoResetOnThursday()
    ensures !ShouldResetWeekly(DefaultResetInfo, 0)
  {
    assert WeekdayName(0) == "Thursday";
  }

  // ---------------------------------------------------------------------
  // /cancel_challenge and the fallback
  // ---------------------------------------------------------------------

  /**
   * `cancel_challenge_command`: removes the caller's challenge found by
   * `find_user_challenge`, if there is one; the session is cleared only
   * when it belongs to the caller.
   */
  method CancelChallengeCommand(m: ChallengeManager, session: Session, username: Option<string>,
                                userId: int, saveOk: bool)
    returns (session': Session, removed: Option<string>)
    requires m.Valid()
    modifies m
    ensures m.Valid()
    ensures m.counter == old(m.counter)
    ensures removed.Some? ==>
      && Truthy(username) && removed.value in old(m.challenges)
      && SameName(old(m.challenges)[removed.value].challenger, username.value)
      && m.challenges == old(m.challenges) - {removed.value}
      && session' == (if session.challengerId == Some(userId) then EmptySession else session)
      && m.persisted == if saveOk then m.challenges else old(m.persisted)
    ensures removed.None? ==> m.challenges == old(m.challenges) && session' == session && m.persisted == old(m.persisted)
    ensures removed.None? && Truthy(username) ==>
      || (forall id :: id in old(m.challenges) ==> !SameName(old(m.challenges)[id].challenger, username.value))
      || ("" in old(m.challenges) && SameName(old(m.challenges)[""].challenger, username.value))
  {
    session' := session;
    removed := None;
    if !Truthy(username) {
      return;
    }
    var found := m.FindUserChallenge(username.value);
    if !Truthy(found) {
      return;
    }
    var id := found.value;
    var c := m.GetChallenge(id);
    if c.None? {
      return;
    }
    var _ := m.RemoveChallenge(id, saveOk);
    if session.challengerId == Some(userId) {
      session' := EmptySession;
    }
    removed := Some(id);
  }

  /** `cancel_conversation`: removes the session's challenge, if any, and clears the session. */
  method CancelConversation(m: ChallengeManager, session: Session, saveOk: bool)
    returns (next: ConvState, session': Session)
    requires m.Valid()
    modifies m
    ensures m.Valid()
    ensures m.counter == old(m.counter)
    ensures next == End && session' == EmptySession
    ensures m.challenges == if session.challengeId.Some? then old(m.challenges) - {session.challengeId.value} else old(m.challenges)
    ensures m.persisted == if session.challengeId.Some? && session.challengeId.value in old(m.challenges) && saveOk then m.challenges else old(m.persisted)
  {
    if session.challengeId.Some? {
      var _ := m.RemoveChallenge(session.challengeId.value, saveOk);
    }
    return End, EmptySession;
  }
}
