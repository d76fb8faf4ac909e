/**
 * The challenge store: an in-memory table from challenge ID to challenge
 * record plus a monotonically increasing counter from which new IDs
 * `challenge_<n>` are drawn. The store validates nothing; every mutation
 * takes effect in memory whether or not writing the challenges file works.
 */
module ChallengeStore {
  import opened Wrappers
  import opened Text

  /**
   * One stored challenge. `timestamp` is the creation instant in seconds of
   * local wall-clock time; `None` stands for a record whose timestamp is
   * missing or cannot be parsed. `extra` holds any further fields a caller
   * merged into the record (the store itself never writes a `status`).
   * Every record has a challenger, a challenged user and a wager:
   * `find_user_challenge` reads a missing `challenger_user` as "", but the
   * handlers index these fields directly and raise on a record that lacks
   * one, which this model does not represent.
   */
  datatype Challenge = Challenge(
    challenger: string,
    challenged: string,
    wager: int,
    timestamp: Option<int>,
    extra: map<string, string>)

  /** The fields given to `update_challenge`; `None` means "not supplied". */
  datatype Patch = Patch(
    challenger: Option<string>,
    challenged: Option<string>,
    wager: Option<int>,
    timestamp: Option<Option<int>>,
    extra: map<string, string>)

  const NoChange := Patch(None, None, None, None, map[])

  /** `record.update(data)`: supplied fields overwrite, the others stay. */
  function Merge(c: Challenge, p: Patch): Challenge {
    Challenge(
      p.challenger.GetOr(c.challenger),
      p.challenged.GetOr(c.challenged),
      p.wager.GetOr(c.wager),
      p.timestamp.GetOr(c.timestamp),
      c.extra + p.extra)
  }

  /** Applying `p` and then `q` is the same as applying `q` laid over `p`. */
  function Overlay(p: Patch, q: Patch): Patch {
    Patch(
      if q.challenger.Some? then q.challenger else p.challenger,
      if q.challenged.Some? then q.challenged else p.challenged,
      if q.wager.Some? then q.wager else p.wager,
      if q.timestamp.Some? then q.timestamp else p.timestamp,
      p.extra + q.extra)
  }

  /** An update with no fields leaves a record as it was. */
  lemma MergeNoChange(c: Challenge)
    ensures Merge(c, NoChange) == c
  {
    assert c.extra + map[] == c.extra;
  }

  /** Merging the same fields twice changes nothing the second time. */
  lemma MergeIdempotent(c: Challenge, p: Patch)
    ensures Merge(Merge(c, p), p) == Merge(c, p)
  {
    assert c.extra + p.extra + p.extra == c.extra + p.extra;
  }

  /** Two successive updates compose: the later one wins field by field. */
  lemma MergeCompose(c: Challenge, p: Patch, q: Patch)
    ensures Merge(Merge(c, p), q) == Merge(c, Overlay(p, q))
  {
    assert c.extra + p.extra + q.extra == c.extra + (p.extra + q.extra);
  }

  // ---------------------------------------------------------------------
  // Challenge IDs and the counter
  // ---------------------------------------------------------------------

  const Prefix := "challenge_"

  /** The ID `create_challenge` gives its `n`-th challenge. */
  function IdFor(n: nat): string {
    Prefix + NatToString(n)
  }

  /**
   * The counter value a key contributes when the table is loaded: for a
   * key starting with `challenge_`, its second `_`-separated field, when
   * that field is all digits; nothing otherwise.
   */
  function SuffixValue(key: string): Option<nat> {
    if |key| >= |Prefix| && key[..|Prefix|] == Prefix then
      var field := FirstField(key[|Prefix|..], '_');
      if IsDigits(field) then Some(DigitsValue(field)) else None
    else None
  }

  /** The ID of challenge `n` contributes exactly `n`. */
  lemma SuffixOfId(n: nat)
    ensures SuffixValue(IdFor(n)) == Some(n)
  {
    var key := IdFor(n);
    assert key[..|Prefix|] == Prefix;
    assert key[|Prefix|..] == NatToString(n);
  }

  /** Distinct counter values give distinct IDs. */
  lemma IdForInjective(a: nat, b: nat)
    ensures IdFor(a) == IdFor(b) ==> a == b
  {
    SuffixOfId(a);
    SuffixOfId(b);
  }

  /** Every numeric suffix among the keys of `table` is at most `counter`. */
  ghost predicate CounterBound(table: map<string, Challenge>, counter: nat) {
    forall key :: key in table && SuffixValue(key).Some? ==> SuffixValue(key).value <= counter
  }

  /** Under the bound, the next ID is not yet in the table. */
  lemma NextIdFresh(table: map<string, Challenge>, counter: nat)
    requires CounterBound(table, counter)
    ensures IdFor(counter + 1) !in table
  {
    SuffixOfId(counter + 1);
  }

  /**
   * The counter `_load_state` recovers: the largest numeric suffix among
   * the `challenge_<digits>` keys, or 0 when there is none.
   */
  method RecoverCounter(keys: set<string>) returns (counter: nat)
    ensures forall key :: key in keys && SuffixValue(key).Some? ==> SuffixValue(key).value <= counter
    ensures counter == 0 || exists key :: key in keys && SuffixValue(key) == Some(counter)
  {
    counter := 0;
    var rest := keys;
    while rest != {}
      invariant rest <= keys
      invariant forall key :: key in keys - rest && SuffixValue(key).Some? ==> SuffixValue(key).value <= counter
      invariant counter == 0 || exists key :: key in keys - rest && SuffixValue(key) == Some(counter)
      decreases rest
    {
      var key :| key in rest;
      match SuffixValue(key) {
        case Some(v) =>
          if v > counter {
            counter := v;
          }
        case None =>
      }
      rest := rest - {key};
    }
  }

  // ---------------------------------------------------------------------
  // Expiry
  // ---------------------------------------------------------------------

  /** The age, in hours, after which `cleanup_expired_challenges` drops a challenge unless told otherwise. */
  const DefaultExpiryHours := 24

  /**
   * A challenge is expired when more than `expiryHours` hours have passed
   * since its timestamp, or when it has no usable timestamp.
   */
  predicate Expired(c: Challenge, expiryHours: int, now: int) {
    match c.timestamp
    case None => true
    case Some(t) => now - t > expiryHours * 3600
  }

  function ExpiredIds(table: map<string, Challenge>, expiryHours: int, now: int): set<string> {
    set id | id in table && Expired(table[id], expiryHours, now)
  }

  function Unexpired(table: map<string, Challenge>, expiryHours: int, now: int): map<string, Challenge> {
    map id | id in table && !Expired(table[id], expiryHours, now) :: table[id]
  }

  /** A sweep splits the table: what it removes and what it keeps partition the IDs. */
  lemma SweepPartitions(table: map<string, Challenge>, expiryHours: int, now: int)
    ensures Unexpired(table, expiryHours, now).Keys !! ExpiredIds(table, expiryHours, now)
    ensures Unexpired(table, expiryHours, now).Keys + ExpiredIds(table, expiryHours, now) == table.Keys
    ensures |Unexpired(table, expiryHours, now)| + |ExpiredIds(table, expiryHours, now)| == |table|
  {
    var kept := Unexpired(table, expiryHours, now).Keys;
    var gone := ExpiredIds(table, expiryHours, now);
    assert kept + gone == table.Keys;
    assert |kept + gone| == |kept| + |gone|;
  }

  /** A second sweep at the same instant finds nothing left to remove. */
  lemma SweepIdempotent(table: map<string, Challenge>, expiryHours: int, now: int)
    ensures ExpiredIds(Unexpired(table, expiryHours, now), expiryHours, now) == {}
    ensures Unexpired(Unexpired(table, expiryHours, now), expiryHours, now) == Unexpired(table, expiryHours, now)
  {
  }

  // ---------------------------------------------------------------------
  // The store
  // ---------------------------------------------------------------------

  /**
   * `ChallengeManager`, one instance used by sequential calls. `persisted`
   * is the last table successfully written to the challenges file; each
   * mutating method takes `saveOk`, whether that write works this time.
   * A failed write is swallowed: the in-memory table changes either way.
   */
  class ChallengeManager {
    var challenges: map<string, Challenge>
    var counter: nat
    var persisted: map<string, Challenge>

    /** No key in the table carries a suffix above the counter. */
    ghost predicate Valid()
      reads this
    {
      CounterBound(challenges, counter)
    }

    /** `__init__` and `_load_state`: adopt the stored table, recover the counter. */
    constructor (stored: map<string, Challenge>)
      ensures Valid()
      ensures challenges == stored && persisted == stored
      ensures counter == 0 || exists key :: key in stored && SuffixValue(key) == Some(counter)
    {
      var c := RecoverCounter(stored.Keys);
      challenges := stored;
      counter := c;
      persisted := stored;
    }

    /** `_save_state`: write the table; a failure leaves the file as it was. */
    method SaveState(saveOk: bool)
      modifies this`persisted
      ensures persisted == if saveOk then challenges else old(persisted)
    {
      if saveOk {
        persisted := challenges;
      }
    }

    /**
     * `create_challenge`: draws the next ID and stores the record under it.
     * It checks nothing about the participants.
     */
    method CreateChallenge(challenger: string, challenged: string, wager: int, now: int, saveOk: bool)
      returns (id: string)
      requires Valid()
      modifies this
      ensures Valid()
      ensures counter == old(counter) + 1 && id == IdFor(counter)
      ensures id !in old(challenges)
      ensures challenges == old(challenges)[id := Challenge(challenger, challenged, wager, Some(now), map[])]
      ensures persisted == if saveOk then challenges else old(persisted)
    {
      NextIdFresh(challenges, counter);
      counter := counter + 1;
      id := IdFor(counter);
      challenges := challenges[id := Challenge(challenger, challenged, wager, Some(now), map[])];
      SuffixOfId(counter);
      SaveState(saveOk);
    }

    /** `get_challenge`: the record stored under `id`, if any. */
    method GetChallenge(id: string) returns (r: Option<Challenge>)
      ensures r.Some? <==> id in challenges
      ensures r.Some? ==> r.value == challenges[id]
    {
      r := if id in challenges then Some(challenges[id]) else None;
    }

    /** `update_challenge`: merges the supplied fields into an existing record. */
    method UpdateChallenge(id: string, patch: Patch, saveOk: bool) returns (ok: bool)
      requires Valid()
      modifies this
      ensures Valid()
      ensures ok == (id in old(challenges))
      ensures challenges == if ok then old(challenges)[id := Merge(old(challenges)[id], patch)] else old(challenges)
      ensures counter == old(counter)
      ensures persisted == if ok && saveOk then challenges else old(persisted)
    {
      if id !in challenges {
        return false;
      }
      challenges := challenges[id := Merge(challenges[id], patch)];
      SaveState(saveOk);
      ok := true;
    }

    /** `remove_challenge`: deletes the record stored under `id`, if any. */
    method RemoveChallenge(id: string, saveOk: bool) returns (ok: bool)
      requires Valid()
      modifies this
      ensures Valid()
      ensures ok == (id in old(challenges))
      ensures challenges == old(challenges) - {id}
      ensures counter == old(counter)
      ensures persisted == if ok && saveOk then challenges else old(persisted)
    {
      if id !in challenges {
        return false;
      }
      challenges := challenges - {id};
      SaveState(saveOk);
      ok := true;
    }

    /**
     * `find_user_challenge`: some challenge whose challenger matches
     * `username` ignoring case. The challenged user is never consulted.
     */
    method FindUserChallenge(username: string) returns (r: Option<string>)
      ensures r.Some? ==> r.value in challenges && SameName(challenges[r.value].challenger, username)
      ensures r.None? ==> forall id :: id in challenges ==> !SameName(challenges[id].challenger, username)
    {
      var rest := challenges.Keys;
      while rest != {}
        invariant rest <= challenges.Keys
        invariant forall id :: id in challenges && id !in rest ==> !SameName(challenges[id].challenger, username)
        decreases rest
      {
        var id :| id in rest;
        if Lower(challenges[id].challenger) == Lower(username) {
          return Some(id);
        }
        rest := rest - {id};
      }
      return None;
    }

    /**
     * `cleanup_expired_challenges`: removes every expired record, returns
     * their IDs, and writes the file only when something was removed. The
     * age limit defaults to a day, as in the source.
     */
    method CleanupExpiredChallenges(now: int, saveOk: bool, expiryHours: int := DefaultExpiryHours) returns (expired: seq<string>)
      requires Valid()
      modifies this
      ensures Valid()
      ensures forall i, j :: 0 <= i < j < |expired| ==> expired[i] != expired[j]
      ensures forall id :: id in expired <==> id in ExpiredIds(old(challenges), expiryHours, now)
      ensures expired == [] <==> ExpiredIds(old(challenges), expiryHours, now) == {}
      ensures challenges == Unexpired(old(challenges), expiryHours, now)
      ensures counter == old(counter)
      ensures persisted == if |expired| > 0 && saveOk then challenges else old(persisted)
    {
      ghost var table := challenges;
      var rest := challenges.Keys;
      expired := [];
      while rest != {}
        invariant rest <= table.Keys
        invariant challenges.Keys <= table.Keys
        invariant forall id :: id in challenges ==> challenges[id] == table[id]
        invariant forall id :: id in table ==> (id in challenges <==> id in rest || !Expired(table[id], expiryHours, now))
        invariant forall i, j :: 0 <= i < j < |expired| ==> expired[i] != expired[j]
        invariant forall id :: id in expired <==> id in table && id !in rest && Expired(table[id], expiryHours, now)
        invariant counter == old(counter) && persisted == old(persisted)
        invariant CounterBound(challenges, counter)
        decreases rest
      {
        var id :| id in rest;
        if Expired(challenges[id], expiryHours, now) {
          expired := expired + [id];
          challenges := challenges - {id};
        }
        rest := rest - {id};
      }
      assert expired != [] ==> expired[0] in ExpiredIds(table, expiryHours, now);
      if |expired| > 0 {
        SaveState(saveOk);
      }
    }

    /** `get_all_challenges`: a copy of the whole table. */
    method GetAllChallenges() returns (all: map<string, Challenge>)
      ensures all == challenges
    {
      all := challenges;
    }

    /** `get_challenge_count`: the number of stored challenges. */
    method GetChallengeCount() returns (n: nat)
      ensures n == |challenges.Keys|
    {
      n := |challenges|;
    }

    /** `get_challenge_counter`: the last number handed out. */
    method GetChallengeCounter() returns (n: nat)
      ensures n == counter
    {
      n := counter;
    }
  }

  /** A second removal of the same ID reports failure and changes nothing. */
  method RemoveTwice(m: ChallengeManager, id: string, saveOk: bool) returns (first: bool, second: bool)
    requires m.Valid()
    modifies m
    ensures m.Valid()
    ensures first == (id in old(m.challenges)) && !second
    ensures m.challenges == old(m.challenges) - {id}
  {
    first := m.RemoveChallenge(id, saveOk);
    second := m.RemoveChallenge(id, saveOk);
  }

  /** A second sweep with the same clock removes nothing and writes nothing. */
  method CleanupTwice(m: ChallengeManager, expiryHours: int, now: int, saveOk: bool)
    returns (first: seq<string>, second: seq<string>)
    requires m.Valid()
    modifies m
    ensures m.Valid()
    ensures second == []
    ensures m.challenges == Unexpired(old(m.challenges), expiryHours, now)
  {
    first := m.CleanupExpiredChallenges(now, saveOk, expiryHours);
    ghost var written := m.persisted;
    SweepIdempotent(old(m.challenges), expiryHours, now);
    second := m.CleanupExpiredChallenges(now, saveOk, expiryHours);
    assert m.persisted == written;
  }
}
