/**
 * The simplified handlers used without the conversation machinery: a
 * `/challenge` that refuses a second challenge by the same challenger and
 * creates one with no wager, and a response handler that removes the
 * challenge and, on accept, names a winner without touching the
 * leaderboards.
 */
module SimpleHandlers {
  import opened Wrappers
  import opened Text
  import opened ChallengeStore
  import opened Battle
  import opened Handlers

  datatype SimpleGuard = NoArgument | NoUsername | EmptyTarget | SelfTarget | Proceed(challenger: string, target: string)

  /**
   * The guard chain of `simple_challenge_command`, in order: a non-empty
   * argument, a username, a target that is not empty once its leading '@'s
   * and surrounding whitespace are removed, and a target other than the
   * challenger ignoring case. The first guard that fails is reported.
   */
  function SimpleGuards(args: seq<string>, username: Option<string>): (g: SimpleGuard)
    ensures g.NoArgument? <==> |args| == 0 || args[0] == ""
    ensures g.NoUsername? ==> |args| > 0 && args[0] != "" && !Truthy(username)
    ensures g.EmptyTarget? ==> Truthy(username)
    ensures g.SelfTarget? ==> Truthy(username) && Strip(LStrip(args[0], '@')) != ""
    ensures g.Proceed? <==>
      && |args| > 0 && args[0] != "" && Truthy(username)
      && Strip(LStrip(args[0], '@')) != "" && !SameName(Strip(LStrip(args[0], '@')), username.value)
    ensures g.Proceed? ==>
      && g.challenger == username.value && g.target == Strip(LStrip(args[0], '@'))
      && g.target != "" && !IsSpace(g.target[0]) && !SameName(g.challenger, g.target)
  {
    if |args| == 0 || args[0] == "" then NoArgument
    else if !Truthy(username) then NoUsername
    else
      var target := Strip(LStrip(args[0], '@'));
      if target == "" then EmptyTarget
      else if SameName(target, username.value) then SelfTarget
      else Proceed(username.value, target)
  }

  /**
   * At most one challenge per challenger (names compared ignoring case),
   * and no challenge stored under the empty ID, which the handler would
   * not see.
   */
  ghost predicate OnePerChallenger(table: map<string, Challenge>) {
    && "" !in table
    && forall a, b :: a in table && b in table && SameName(table[a].challenger, table[b].challenger) ==> a == b
  }

  /** Adding a challenge by someone who has none keeps one challenge per challenger. */
  lemma AddKeepsOnePerChallenger(table: map<string, Challenge>, id: string, c: Challenge)
    requires OnePerChallenger(table) && id != "" && id !in table
    requires forall k :: k in table ==> !SameName(table[k].challenger, c.challenger)
    ensures OnePerChallenger(table[id := c])
  {
    var t := table[id := c];
    forall a, b | a in t && b in t && SameName(t[a].challenger, t[b].challenger)
      ensures a == b
    {
      if a != id && b != id {
        assert a in table && b in table;
      }
    }
  }

  /**
   * `simple_challenge_command`: after the guards, a challenger who already
   * has a challenge (by `find_user_challenge`) is refused; otherwise one
   * challenge with no wager is created. The store then still holds at most
   * one challenge per challenger.
   */
  method SimpleChallengeCommand(m: ChallengeManager, args: seq<string>, username: Option<string>,
                                now: int, saveOk: bool)
    returns (created: Option<string>)
    requires m.Valid()
    modifies m
    ensures m.Valid()
    ensures created.None? ==> m.challenges == old(m.challenges) && m.counter == old(m.counter) && m.persisted == old(m.persisted)
    ensures created.Some? ==> m.persisted == if saveOk then m.challenges else old(m.persisted)
    ensures created.Some? ==>
      var g := SimpleGuards(args, username);
      && g.Proceed?
      && created.value !in old(m.challenges)
      && m.counter == old(m.counter) + 1 && created.value == IdFor(m.counter)
      && m.challenges == old(m.challenges)[created.value := Challenge(g.challenger, g.target, 0, Some(now), map[])]
    ensures SimpleGuards(args, username).Proceed? ==>
      var g := SimpleGuards(args, username);
      (forall id :: id in old(m.challenges) ==> !SameName(old(m.challenges)[id].challenger, g.challenger))
      ==> created.Some?
    ensures created.Some? && "" !in old(m.challenges) ==>
      forall id :: id in old(m.challenges) ==> !SameName(old(m.challenges)[id].challenger, username.value)
    ensures created.None? && SimpleGuards(args, username).Proceed? ==>
      exists id :: id in old(m.challenges) && id != "" && SameName(old(m.challenges)[id].challenger, username.value)
    ensures OnePerChallenger(old(m.challenges)) ==> OnePerChallenger(m.challenges)
  {
    var g := SimpleGuards(args, username);
    if !g.Proceed? {
      return None;
    }
    var existing := m.FindUserChallenge(g.challenger);
    if Truthy(existing) {
      return None;
    }
    ghost var before := m.challenges;
    var id := m.CreateChallenge(g.challenger, g.target, 0, now, saveOk);
    created := Some(id);
    assert id != "" by {
      assert IdFor(m.counter)[0] == 'c';
    }
    if OnePerChallenger(before) {
      AddKeepsOnePerChallenger(before, id, m.challenges[id]);
    }
  }

  /**
   * `simple_challenge_response`: bad data, an unknown ID or a clicker who
   * is not the challenged user changes nothing. Otherwise the challenge is
   * removed first; an accept then names a winner, the loser being the
   * other participant, and the leaderboards are not updated.
   */
  method SimpleChallengeResponse(m: ChallengeManager, data: string, clicker: Option<string>,
                                 coin: bool, saveOk: bool)
    returns (result: Option<(string, string)>)
    requires m.Valid()
    modifies m
    ensures m.Valid()
    ensures m.counter == old(m.counter)
    ensures var v := Judge(old(m.challenges), data, clicker);
      && ((v.Malformed? || v.Inactive? || v.Unauthorised?) ==> m.challenges == old(m.challenges) && result.None?)
      && (v.Declined? ==> m.challenges == old(m.challenges) - {v.id} && result.None?)
      && (v.Accepted? ==>
        && m.challenges == old(m.challenges) - {v.id}
        && result.Some?
        && (result.value.0 == v.challenge.challenger || result.value.0 == v.challenge.challenged)
        && (v.challenge.challenger != v.challenge.challenged ==>
              {result.value.0, result.value.1} == {v.challenge.challenger, v.challenge.challenged}
              && result.value.0 != result.value.1))
      && m.persisted == (if (v.Accepted? || v.Declined?) && saveOk then m.challenges else old(m.persisted))
    ensures OnePerChallenger(old(m.challenges)) ==> OnePerChallenger(m.challenges)
  {
    var v := Judge(m.challenges, data, clicker);
    result := None;
    match v
    case Accepted(id, c) =>
      var _ := m.RemoveChallenge(id, saveOk);
      result := Some(DetermineWinner(c.challenger, c.challenged, coin));
    case Declined(id, _) =>
      var _ := m.RemoveChallenge(id, saveOk);
    case _ =>
  }

  /** A second simple `/challenge` by the same user creates nothing. */
  method SecondChallengeRefused(m: ChallengeManager, args: seq<string>, username: Option<string>, now: int)
    returns (first: Option<string>, second: Option<string>)
    requires m.Valid() && "" !in m.challenges
    modifies m
    ensures first.Some? ==> second.None?
  {
    first := SimpleChallengeCommand(m, args, username, now, true);
    if first.Some? {
      var id := first.value;
      assert id != "" by {
        assert IdFor(m.counter)[0] == 'c';
      }
      assert SameName(m.challenges[id].challenger, username.value);
    }
    second := SimpleChallengeCommand(m, args, username, now, true);
  }
}
