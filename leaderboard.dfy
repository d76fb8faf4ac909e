/**
 * The leaderboard engine: per-user win/loss/marble records in an overall
 * and a weekly table, the weekly reset rule, the settlement of one battle,
 * the ranking shown to users and the per-user lookup.
 *
 * Time is a parameter: `now` is the local wall-clock time in whole seconds
 * since 1970-01-01 00:00, a Thursday. A calendar date is `now / 86400` and
 * `timedelta.days` of a difference is the floor of the difference in days.
 */
module Leaderboard {
  import opened Wrappers
  import opened Text

  // ---------------------------------------------------------------------
  // Records and settlement
  // ---------------------------------------------------------------------

  /** One user's record: `{'wins': …, 'losses': …, 'marbles': …}`. */
  datatype Stats = Stats(wins: int, losses: int, marbles: int)

  /** The record of a user the table does not mention yet. */
  const Zero := Stats(0, 0, 0)

  /** A leaderboard document: username to record. */
  type Table = map<string, Stats>

  /** A user's record, or the empty record when the user is absent. */
  function Lookup(t: Table, user: string): Stats {
    if user in t then t[user] else Zero
  }

  /** The effect of one battle on one record. */
  function Bump(s: Stats, isWinner: bool, isLoser: bool, wager: int): Stats {
    Stats(s.wins + (if isWinner then 1 else 0),
          s.losses + (if isLoser then 1 else 0),
          s.marbles + (if isWinner then wager else 0) - (if isLoser then wager else 0))
  }

  /**
   * Reference definition of a settlement, user by user: both participants
   * gain an entry, the winner one win and the wager, the loser one loss
   * and minus the wager; everyone else keeps their record.
   */
  function Settled(t: Table, winner: string, loser: string, wager: int): Table {
    map u | u in t.Keys + {winner, loser} :: Bump(Lookup(t, u), u == winner, u == loser, wager)
  }

  /** Adds an empty record for every listed user that has none. */
  method InitUsers(t: Table, users: seq<string>) returns (r: Table)
    ensures forall u :: u in r <==> u in t || u in users
    ensures forall u :: u in r ==> r[u] == Lookup(t, u)
  {
    r := t;
    for i := 0 to |users|
      invariant forall u :: u in r <==> u in t || u in users[..i]
      invariant forall u :: u in r ==> r[u] == Lookup(t, u)
    {
      assert users[..i + 1] == users[..i] + [users[i]];
      if users[i] !in r {
        r := r[users[i] := Zero];
      }
    }
    assert users[..|users|] == users;
  }

  /**
   * The in-place increments of one table, in the source's order: the
   * winner's wins, the loser's losses, then the marbles moved. The result
   * is the reference settlement.
   */
  method RecordBattle(t: Table, winner: string, loser: string, wager: int) returns (r: Table)
    ensures r == Settled(t, winner, loser, wager)
  {
    r := InitUsers(t, [winner, loser]);
    r := r[winner := r[winner].(wins := r[winner].wins + 1)];
    r := r[loser := r[loser].(losses := r[loser].losses + 1)];
    r := r[winner := r[winner].(marbles := r[winner].marbles + wager)];
    r := r[loser := r[loser].(marbles := r[loser].marbles - wager)];
    assert r.Keys == Settled(t, winner, loser, wager).Keys;
  }

  /**
   * What `get_user_stats` reports after a battle between two different
   * users: the winner's and the loser's records moved by one battle and
   * the wager, every other user's unchanged.
   */
  lemma SettledEntries(t: Table, winner: string, loser: string, wager: int)
    requires winner != loser
    ensures Lookup(Settled(t, winner, loser, wager), winner)
      == Stats(Lookup(t, winner).wins + 1, Lookup(t, winner).losses, Lookup(t, winner).marbles + wager)
    ensures Lookup(Settled(t, winner, loser, wager), loser)
      == Stats(Lookup(t, loser).wins, Lookup(t, loser).losses + 1, Lookup(t, loser).marbles - wager)
    ensures forall u :: u != winner && u != loser ==> Lookup(Settled(t, winner, loser, wager), u) == Lookup(t, u)
  {
  }

  /** A battle of a user against themself changes only the battle count. */
  lemma SelfBattleKeepsMarbles(t: Table, user: string, wager: int)
    ensures Lookup(Settled(t, user, user, wager), user)
      == Stats(Lookup(t, user).wins + 1, Lookup(t, user).losses + 1, Lookup(t, user).marbles)
  {
  }

  // ---------------------------------------------------------------------
  // Conservation
  // ---------------------------------------------------------------------

  datatype Column = Wins | Losses | Marbles

  function Field(s: Stats, c: Column): int {
    match c
    case Wins => s.wins
    case Losses => s.losses
    case Marbles => s.marbles
  }

  /** The sum of one column over every record of a table. */
  ghost function Total(t: Table, c: Column): int
    decreases t.Keys
  {
    if t == map[] then 0
    else
      var u :| u in t;
      Field(t[u], c) + Total(t - {u}, c)
  }

  /** The sum does not depend on which record is taken out first. */
  lemma {:induction false} TotalRemove(t: Table, u: string, c: Column)
    requires u in t
    ensures Total(t, c) == Field(t[u], c) + Total(t - {u}, c)
    decreases t.Keys
  {
    var v :| v in t && Total(t, c) == Field(t[v], c) + Total(t - {v}, c);
    if v != u {
      TotalRemove(t - {v}, u, c);
      TotalRemove(t - {u}, v, c);
      assert t - {v} - {u} == t - {u} - {v};
    }
  }

  /** Replacing one record changes the sum by the difference. */
  lemma TotalUpdate(t: Table, u: string, s: Stats, c: Column)
    ensures Total(t[u := s], c) == Total(t, c) - Field(Lookup(t, u), c) + Field(s, c)
  {
    TotalRemove(t[u := s], u, c);
    assert t[u := s] - {u} == t - {u};
    if u in t {
      TotalRemove(t, u, c);
    } else {
      assert t - {u} == t;
    }
  }

  /**
   * A settlement adds one win and one loss to the table and moves marbles
   * without creating or destroying any.
   */
  lemma SettleTotals(t: Table, winner: string, loser: string, wager: int)
    ensures Total(Settled(t, winner, loser, wager), Wins) == Total(t, Wins) + 1
    ensures Total(Settled(t, winner, loser, wager), Losses) == Total(t, Losses) + 1
    ensures Total(Settled(t, winner, loser, wager), Marbles) == Total(t, Marbles)
  {
    var r := Settled(t, winner, loser, wager);
    if winner == loser {
      var s := Bump(Lookup(t, winner), true, true, wager);
      assert r == t[winner := s];
      TotalUpdate(t, winner, s, Wins);
      TotalUpdate(t, winner, s, Losses);
      TotalUpdate(t, winner, s, Marbles);
    } else {
      var sw := Bump(Lookup(t, winner), true, false, wager);
      var sl := Bump(Lookup(t, loser), false, true, wager);
      var t1 := t[winner := sw];
      assert Lookup(t1, loser) == Lookup(t, loser);
      assert r == t1[loser := sl];
      TotalUpdate(t, winner, sw, Wins);
      TotalUpdate(t1, loser, sl, Wins);
      TotalUpdate(t, winner, sw, Losses);
      TotalUpdate(t1, loser, sl, Losses);
      TotalUpdate(t, winner, sw, Marbles);
      TotalUpdate(t1, loser, sl, Marbles);
    }
  }

  /** One settled battle: who won, who lost and the marbles wagered. */
  datatype Outcome = Outcome(winner: string, loser: string, wager: int)

  /** A table built from nothing by settling the battles in order. */
  function Replay(outcomes: seq<Outcome>): Table {
    if outcomes == [] then map[]
    else
      var last := outcomes[|outcomes| - 1];
      Settled(Replay(outcomes[..|outcomes| - 1]), last.winner, last.loser, last.wager)
  }

  /**
   * Over any history of battles the table records as many wins as
   * battles, as many losses as wins, and marbles summing to zero.
   */
  lemma {:induction false} ReplayTotals(outcomes: seq<Outcome>)
    ensures Total(Replay(outcomes), Wins) == |outcomes|
    ensures Total(Replay(outcomes), Losses) == |outcomes|
    ensures Total(Replay(outcomes), Marbles) == 0
  {
    if outcomes != [] {
      var n := |outcomes| - 1;
      ReplayTotals(outcomes[..n]);
      SettleTotals(Replay(outcomes[..n]), outcomes[n].winner, outcomes[n].loser, outcomes[n].wager);
    }
  }

  // ---------------------------------------------------------------------
  // Weekly reset rule
  // ---------------------------------------------------------------------

  /**
   * The `last_reset` entry: absent or null, present but falsy (an empty
   * string), present but not a readable timestamp, or a timestamp.
   */
  datatype LastReset = Never | Blank | Unparseable | At(secs: int)

  /** The weekly reset document. */
  datatype ResetInfo = ResetInfo(resetDay: string, lastReset: LastReset)

  /** What is assumed when no reset document exists: Monday, never reset. */
  const DefaultResetInfo := ResetInfo("Monday", Never)

  const SecondsPerDay := 86400

  /** Day names in weekday order, Monday first. */
  const WeekdayNames := ["Monday", "Tuesday", "Wednesday", "Thursday", "Friday", "Saturday", "Sunday"]

  /** `dt.date()`, as a day count since 1970-01-01. */
  function DayNumber(secs: int): int {
    secs / SecondsPerDay
  }

  /** `dt.strftime('%A')`; day 0 was a Thursday. */
  function WeekdayName(secs: int): string {
    WeekdayNames[(DayNumber(secs) + 3) % 7]
  }

  /** `(later - earlier).days`: whole days elapsed, rounded down. */
  function WholeDays(earlier: int, later: int): int {
    (later - earlier) / SecondsPerDay
  }

  /** `should_reset_weekly_leaderboard` at time `now`. */
  function ShouldResetWeekly(info: ResetInfo, now: int): bool {
    var onResetDay := WeekdayName(now) == info.resetDay;
    match info.lastReset
    case Never => onResetDay
    case Blank => false
    case Unparseable => onResetDay
    case At(last) =>
      (onResetDay && DayNumber(last) != DayNumber(now) && WholeDays(last, now) >= 6)
      || WholeDays(last, now) >= 7
  }

  /** The weekday repeats every seven days. */
  lemma WeekdayPeriodic(secs: int)
    ensures WeekdayName(secs + 7 * SecondsPerDay) == WeekdayName(secs)
  {
    assert DayNumber(secs + 7 * SecondsPerDay) == DayNumber(secs) + 7;
  }

  /** Without a readable last reset the weekly board resets exactly on its reset day. */
  lemma ResetWithoutHistory(info: ResetInfo, now: int)
    requires info.lastReset.Never? || info.lastReset.Unparseable?
    ensures ShouldResetWeekly(info, now) <==> WeekdayName(now) == info.resetDay
  {
  }

  /** An empty-string last reset blocks every reset. */
  lemma BlankNeverResets(info: ResetInfo, now: int)
    requires info.lastReset.Blank?
    ensures !ShouldResetWeekly(info, now)
  {
  }

  /**
   * Once reset at `last`, the board is not due again later that same
   * calendar day: in particular a reset just made is not repeated.
   */
  lemma NotDueAgainSameDay(info: ResetInfo, last: int, now: int)
    requires last <= now && DayNumber(last) == DayNumber(now)
    ensures !ShouldResetWeekly(info.(lastReset := At(last)), now)
  {
    assert now - last < SecondsPerDay;
    assert WholeDays(last, now) == 0;
  }

  /** The failsafe: seven full days after the last reset the board is due. */
  lemma DueAfterSevenDays(info: ResetInfo, last: int, now: int)
    requires now - last >= 7 * SecondsPerDay
    ensures ShouldResetWeekly(info.(lastReset := At(last)), now)
  {
  }

  /** On the reset day, a week or more of dates after the last reset, the board is due. */
  lemma DueOnNextResetDay(info: ResetInfo, last: int, now: int)
    requires WeekdayName(now) == info.resetDay
    requires DayNumber(now) >= DayNumber(last) + 7
    ensures ShouldResetWeekly(info.(lastReset := At(last)), now)
  {
    assert now - last > 6 * SecondsPerDay;
  }

  /** Not on the reset day and less than seven days on, the board is not due. */
  lemma NotDueWithinWeek(info: ResetInfo, last: int, now: int)
    requires WeekdayName(now) != info.resetDay
    requires now - last < 7 * SecondsPerDay
    ensures !ShouldResetWeekly(info.(lastReset := At(last)), now)
  {
  }

  /** Which documents a call fails to write. */
  datatype Doc = OverallDoc | WeeklyDoc | ResetDoc

  /** The weekly table after a reset attempt. */
  function WeeklyAfterReset(weekly: Table, info: ResetInfo, now: int, faults: set<Doc>): Table {
    if ShouldResetWeekly(info, now) && WeeklyDoc !in faults then map[] else weekly
  }

  /** The reset document after a reset attempt. */
  function InfoAfterReset(info: ResetInfo, now: int, faults: set<Doc>): ResetInfo {
    if ShouldResetWeekly(info, now) && WeeklyDoc !in faults && ResetDoc !in faults
    then info.(lastReset := At(now))
    else info
  }

  /** A completed reset is not repeated at the same moment. */
  lemma ResetIdempotent(weekly: Table, info: ResetInfo, now: int, faults: set<Doc>)
    requires ShouldResetWeekly(info, now) && WeeklyDoc !in faults && ResetDoc !in faults
    ensures !ShouldResetWeekly(InfoAfterReset(info, now, faults), now)
    ensures WeeklyAfterReset(WeeklyAfterReset(weekly, info, now, faults), InfoAfterReset(info, now, faults), now, faults) == map[]
  {
    NotDueAgainSameDay(info, now, now);
  }

  // ---------------------------------------------------------------------
  // Ranking
  // ---------------------------------------------------------------------

  /** `max(1, wins + losses)`, the divisor of the win rate. */
  function Battles(s: Stats): int {
    if s.wins + s.losses > 1 then s.wins + s.losses else 1
  }

  /**
   * `a`'s sort key `(wins, wins / max(1, wins + losses), marbles)` is at
   * least `b`'s; the win rates are compared by cross-multiplying.
   */
  predicate RanksAbove(a: Stats, b: Stats) {
    || a.wins > b.wins
    || (a.wins == b.wins && a.wins * Battles(b) > b.wins * Battles(a))
    || (a.wins == b.wins && a.wins * Battles(b) == b.wins * Battles(a) && a.marbles >= b.marbles)
  }

  lemma RanksAboveTotal(a: Stats, b: Stats)
    ensures RanksAbove(a, b) || RanksAbove(b, a)
  {
  }

  lemma RanksAboveTransitive(a: Stats, b: Stats, c: Stats)
    requires RanksAbove(a, b) && RanksAbove(b, c)
    ensures RanksAbove(a, c)
  {
    if a.wins == b.wins == c.wins {
      var w := a.wins;
      var ba, bb, bc := Battles(a), Battles(b), Battles(c);
      assert ba > 0 && bb > 0 && bc > 0;
      // With equal wins, the rate order is the reverse order of w * battles.
      assert a.wins * Battles(b) == w * bb && b.wins * Battles(a) == w * ba;
      assert b.wins * Battles(c) == w * bc && c.wins * Battles(b) == w * bb;
      assert a.wins * Battles(c) == w * bc && c.wins * Battles(a) == w * ba;
    }
  }

  /** Every user listed has a record. */
  predicate Listed(users: seq<string>, t: Table) {
    forall i :: 0 <= i < |users| ==> users[i] in t
  }

  /** Users in ranking order: each ranks at or above everyone after them. */
  predicate SortedBy(users: seq<string>, t: Table) {
    && Listed(users, t)
    && forall i, j :: 0 <= i < j < |users| ==> RanksAbove(t[users[i]], t[users[j]])
  }

  /** A ranking of a table: every user exactly once, in ranking order. */
  predicate IsRanking(users: seq<string>, t: Table) {
    multiset(users) == multiset(t.Keys) && SortedBy(users, t)
  }

  /** Puts `u` in front of the first user it ranks at or above. */
  function InsertUser(u: string, sorted: seq<string>, t: Table): (r: seq<string>)
    requires u in t && Listed(sorted, t)
    ensures multiset(r) == multiset(sorted) + multiset{u}
    ensures Listed(r, t)
  {
    if sorted == [] || RanksAbove(t[u], t[sorted[0]]) then [u] + sorted
    else
      assert sorted == [sorted[0]] + sorted[1..];
      [sorted[0]] + InsertUser(u, sorted[1..], t)
  }

  lemma {:induction false} InsertSorted(u: string, sorted: seq<string>, t: Table)
    requires u in t && SortedBy(sorted, t)
    ensures SortedBy(InsertUser(u, sorted, t), t)
    decreases |sorted|
  {
    var r := InsertUser(u, sorted, t);
    if sorted == [] || RanksAbove(t[u], t[sorted[0]]) {
      forall j | 0 < j < |r|
        ensures RanksAbove(t[r[0]], t[r[j]])
      {
        if j > 1 {
          RanksAboveTransitive(t[u], t[sorted[0]], t[sorted[j - 1]]);
        }
      }
    } else {
      var rest := InsertUser(u, sorted[1..], t);
      InsertSorted(u, sorted[1..], t);
      assert r == [sorted[0]] + rest;
      RanksAboveTotal(t[u], t[sorted[0]]);
      forall j | 0 < j < |r|
        ensures RanksAbove(t[r[0]], t[r[j]])
      {
        var x := rest[j - 1];
        assert x in multiset(rest);
        if x != u {
          assert x in multiset(sorted[1..]);
          var k :| 0 <= k < |sorted[1..]| && sorted[1..][k] == x;
          assert sorted[k + 1] == x;
        }
      }
    }
  }

  /** The users ordered by rank (insertion sort). */
  function SortUsers(users: seq<string>, t: Table): (r: seq<string>)
    requires Listed(users, t)
    ensures multiset(r) == multiset(users)
    ensures SortedBy(r, t)
  {
    if users == [] then []
    else
      var rest := SortUsers(users[1..], t);
      InsertSorted(users[0], rest, t);
      assert users == [users[0]] + users[1..];
      InsertUser(users[0], rest, t)
  }

  /** The first user of a ranking has the best record of the table. */
  lemma RankingLeader(users: seq<string>, t: Table)
    requires IsRanking(users, t) && t != map[]
    ensures |users| > 0 && users[0] in t
    ensures forall u :: u in t ==> RanksAbove(t[users[0]], t[u])
  {
    var u0 :| u0 in t;
    assert u0 in multiset(t.Keys);
    assert u0 in multiset(users);
    forall u | u in t
      ensures RanksAbove(t[users[0]], t[u])
    {
      assert u in multiset(t.Keys);
      assert u in multiset(users);
      var k :| 0 <= k < |users| && users[k] == u;
      if k == 0 {
        RanksAboveTotal(t[u], t[u]);
      }
    }
  }

  // ---------------------------------------------------------------------
  // Display
  // ---------------------------------------------------------------------

  /** The source's trophy, gold, silver and bronze glyphs, byte-for-byte as it holds them. */
  const Trophy := "\U{F0}\U{178}\U{2020}"
  const Gold := "\U{F0}\U{178}\U{A5}\U{2021}"
  const Silver := "\U{F0}\U{178}\U{A5}\U{2C6}"
  const Bronze := "\U{F0}\U{178}\U{A5}\U{2030}"

  /** At most this many rows are shown. */
  const MaxRows := 10

  function EmptyBoard(title: string): string {
    "**" + title + "**\n\nNo battles yet! " + Trophy
  }

  function Header(title: string): string {
    "**" + title + "**\n\n"
  }

  /** The medal of a 1-based rank: the three medals, then `"4."`, `"5."`, … */
  function Medal(rank: nat): string {
    if rank == 1 then Gold else if rank == 2 then Silver else if rank == 3 then Bronze
    else NatToString(rank) + "."
  }

  /** `"{wins}W-{losses}L"`. */
  function RecordText(s: Stats): string {
    IntToString(s.wins) + "W-" + IntToString(s.losses) + "L"
  }

  /** `f"{marbles:+d}"`: always signed. */
  function SignedText(m: int): string {
    if m >= 0 then "+" + NatToString(m) else IntToString(m)
  }

  /** The text after the record: `" | {marbles:+d} marbles"` and the line break. */
  function RowTail(marbles: int): string {
    " | " + SignedText(marbles) + " marbles\n"
  }

  /** A row laid out from its parts: medal, name, record and the tail. */
  function RowOf(medal: string, user: string, record: string, tail: string): string {
    medal + " @" + user + ": " + record + tail
  }

  /** One displayed row (the win-rate percentage is left out). */
  function Row(rank: nat, user: string, s: Stats): string {
    RowOf(Medal(rank), user, RecordText(s), RowTail(s.marbles))
  }

  /** The rows of the listed users, ranked from 1. */
  function Rows(users: seq<string>, t: Table): string {
    if users == [] then ""
    else
      var n := |users| - 1;
      Rows(users[..n], t) + Row(n + 1, users[n], Lookup(t, users[n]))
  }

  /** A row names its user as `@name` and shows their record. */
  lemma RowShowsUser(medal: string, user: string, record: string, tail: string)
    ensures IsInfix("@" + user, RowOf(medal, user, record, tail))
    ensures IsInfix(record, RowOf(medal, user, record, tail))
  {
    var head := medal + " ";
    InfixOfConcat(head, "@" + user, ": " + record + tail);
    assert RowOf(medal, user, record, tail) == head + ("@" + user) + (": " + record + tail);
    InfixOfConcat(head + ("@" + user) + ": ", record, tail);
    assert RowOf(medal, user, record, tail) == head + ("@" + user) + ": " + record + tail;
  }

  /** The `i`-th listed user's `@name` and record appear in the rows. */
  lemma {:induction false} RowsShowUser(users: seq<string>, t: Table, i: nat)
    requires Listed(users, t) && i < |users|
    ensures IsInfix("@" + users[i], Rows(users, t))
    ensures IsInfix(RecordText(t[users[i]]), Rows(users, t))
    decreases |users|
  {
    var n := |users| - 1;
    var front := users[..n];
    var row := Row(n + 1, users[n], Lookup(t, users[n]));
    assert Rows(users, t) == Rows(front, t) + row;
    if i == n {
      RowShowsUser(Medal(n + 1), users[n], RecordText(t[users[n]]), RowTail(t[users[n]].marbles));
      InfixExtendLeft("@" + users[i], Rows(front, t), row);
      InfixExtendLeft(RecordText(t[users[i]]), Rows(front, t), row);
    } else {
      RowsShowUser(front, t, i);
      assert front[i] == users[i];
      InfixExtendRight("@" + users[i], Rows(front, t), row);
      InfixExtendRight(RecordText(t[users[i]]), Rows(front, t), row);
    }
  }

  /** Under the title, every listed user's `@name` and record are shown. */
  lemma BoardShowsUsers(title: string, users: seq<string>, t: Table)
    requires Listed(users, t)
    ensures forall i :: 0 <= i < |users| ==>
      IsInfix("@" + users[i], Header(title) + Rows(users, t))
      && IsInfix(RecordText(t[users[i]]), Header(title) + Rows(users, t))
  {
    forall i | 0 <= i < |users|
      ensures IsInfix("@" + users[i], Header(title) + Rows(users, t))
      ensures IsInfix(RecordText(t[users[i]]), Header(title) + Rows(users, t))
    {
      RowsShowUser(users, t, i);
      InfixExtendLeft("@" + users[i], Header(title), Rows(users, t));
      InfixExtendLeft(RecordText(t[users[i]]), Header(title), Rows(users, t));
    }
  }

  /** How many rows a table of `n` users shows. */
  function Shown(n: nat): (k: nat)
    ensures k <= MaxRows && k <= n
    ensures k == n || k == MaxRows
  {
    if n < MaxRows then n else MaxRows
  }

  /** `leaderboard.items()`: every user of the table once, in some order. */
  method Users(t: Table) returns (users: seq<string>)
    ensures multiset(users) == multiset(t.Keys)
    ensures Listed(users, t) && |users| == |t|
  {
    users := [];
    var rest := t.Keys;
    while rest != {}
      invariant Listed(users, t) && rest <= t.Keys
      invariant multiset(users) + multiset(rest) == multiset(t.Keys)
      invariant |users| + |rest| == |t.Keys|
      decreases rest
    {
      var u :| u in rest;
      assert rest == (rest - {u}) + {u};
      users := users + [u];
      rest := rest - {u};
    }
  }

  /** The rows of a longer prefix: one more row at the end. */
  lemma RowsSnoc(users: seq<string>, t: Table, i: nat)
    requires i < |users|
    ensures Rows(users[..i + 1], t) == Rows(users[..i], t) + Row(i + 1, users[i], Lookup(t, users[i]))
  {
    assert users[..i + 1][..i] == users[..i];
  }

  /** Appending the next row to the text so far gives the text of one more row. */
  lemma AppendRow(text0: string, users: seq<string>, t: Table, i: nat)
    requires i < |users|
    ensures text0 + Rows(users[..i], t) + Row(i + 1, users[i], Lookup(t, users[i])) == text0 + Rows(users[..i + 1], t)
  {
    RowsSnoc(users, t, i);
    var a, b, c := text0, Rows(users[..i], t), Row(i + 1, users[i], Lookup(t, users[i]));
    assert a + b + c == a + (b + c);
  }

  /** The loop of `format_leaderboard`: one row per listed user appended to `text0`. */
  method AppendRows(text0: string, users: seq<string>, t: Table) returns (text: string)
    ensures text == text0 + Rows(users, t)
  {
    text := text0;
    for i := 0 to |users|
      invariant text == text0 + Rows(users[..i], t)
    {
      AppendRow(text0, users, t, i);
      text := text + Row(i + 1, users[i], Lookup(t, users[i]));
    }
    assert users[..|users|] == users;
  }

  /**
   * `format_leaderboard`: the empty-board message for an empty table;
   * otherwise the title and one row for each of the first ten users of a
   * ranking of the table, each row naming the user and their record.
   */
  method FormatLeaderboard(t: Table, title: string) returns (text: string, ghost ranking: seq<string>)
    ensures t == map[] ==> text == EmptyBoard(title)
    ensures t != map[] ==> IsRanking(ranking, t) && |ranking| == |t|
    ensures t != map[] ==> text == Header(title) + Rows(ranking[..Shown(|t|)], t)
    ensures t != map[] ==> forall i :: 0 <= i < Shown(|t|) ==>
      IsInfix("@" + ranking[i], text) && IsInfix(RecordText(t[ranking[i]]), text)
  {
    if t == map[] {
      return EmptyBoard(title), [];
    }
    var users := Users(t);
    var sorted := SortUsers(users, t);
    assert |sorted| == |multiset(sorted)| == |users|;
    ranking := sorted;
    var n := Shown(|t|);
    text := AppendRows(Header(title), sorted[..n], t);
    BoardShowsUsers(title, sorted[..n], t);
    assert forall i :: 0 <= i < n ==> sorted[..n][i] == sorted[i];
  }

  // ---------------------------------------------------------------------
  // The stored leaderboards
  // ---------------------------------------------------------------------

  /**
   * The three stored documents: the overall and weekly tables and the
   * weekly reset information. A write listed in `faults` fails and leaves
   * its document as it was.
   */
  class Leaderboards {
    var overall: Table
    var weekly: Table
    var resetInfo: ResetInfo

    /** Documents as loaded; no reset document means the default one. */
    constructor (overall0: Table, weekly0: Table, info0: Option<ResetInfo>)
      ensures overall == overall0 && weekly == weekly0
      ensures resetInfo == if info0.Some? then info0.value else DefaultResetInfo
    {
      overall := overall0;
      weekly := weekly0;
      resetInfo := if info0.Some? then info0.value else DefaultResetInfo;
    }

    /**
     * `reset_weekly_leaderboard`: when the rule says so, clear the weekly
     * table, then stamp the reset time; true only when both writes land.
     */
    method ResetWeeklyLeaderboard(now: int, faults: set<Doc>) returns (reset: bool)
      modifies this
      ensures reset <==> ShouldResetWeekly(old(resetInfo), now) && WeeklyDoc !in faults && ResetDoc !in faults
      ensures weekly == WeeklyAfterReset(old(weekly), old(resetInfo), now, faults)
      ensures resetInfo == InfoAfterReset(old(resetInfo), now, faults)
      ensures overall == old(overall)
    {
      if !ShouldResetWeekly(resetInfo, now) || WeeklyDoc in faults {
        return false;
      }
      weekly := map[];
      if ResetDoc in faults {
        return false;
      }
      resetInfo := resetInfo.(lastReset := At(now));
      reset := true;
    }

    /**
     * `update_leaderboard`: a due weekly reset first, then the battle
     * settled in both tables; the overall table is written before the
     * weekly one, and the call fails as soon as a write fails. `faults`
     * names the documents whose writes fail during this call, so the
     * reset's clearing write and the settlement's write of the weekly table
     * fail or succeed together, although the bot issues them separately.
     */
    method UpdateLeaderboard(winner: string, loser: string, marbleChange: int, now: int, faults: set<Doc>)
      returns (ok: bool)
      modifies this
      ensures ok <==> OverallDoc !in faults && WeeklyDoc !in faults
      ensures overall == if OverallDoc in faults then old(overall) else Settled(old(overall), winner, loser, marbleChange)
      ensures var cleared := WeeklyAfterReset(old(weekly), old(resetInfo), now, faults);
        weekly == if ok then Settled(cleared, winner, loser, marbleChange) else cleared
      ensures resetInfo == InfoAfterReset(old(resetInfo), now, faults)
    {
      var _ := ResetWeeklyLeaderboard(now, faults);
      var newOverall := RecordBattle(overall, winner, loser, marbleChange);
      var newWeekly := RecordBattle(weekly, winner, loser, marbleChange);
      if OverallDoc in faults {
        return false;
      }
      overall := newOverall;
      if WeeklyDoc in faults {
        return false;
      }
      weekly := newWeekly;
      ok := true;
    }

    /** `get_user_stats`: a user's overall and weekly records. */
    method GetUserStats(username: string) returns (o: Stats, w: Stats)
      ensures o == Lookup(overall, username) && w == Lookup(weekly, username)
      ensures username !in overall ==> o == Zero
      ensures username !in weekly ==> w == Zero
    {
      o := if username in overall then overall[username] else Zero;
      w := if username in weekly then weekly[username] else Zero;
    }
  }
}
