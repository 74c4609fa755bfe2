/** How a run begins: the first steps of a request of each kind, from the empty system. */
module ProtocolRuns {
  import opened Basics
  import opened DeliveryStore
  import opened Protocol
  import opened ProtocolTruth
  import opened ProtocolRetry

  const MAIL := Envelope("a@b.c", "d@e.f", "s", "t", "", "m", "", "", [])
  const MEMBERS: map<nat, Standing> := map[7 := Member]

  /** The key of user 7's one delivery of a kind. */
  function KeyFor(kind: Kind): Key {
    Key(kind, 7, 1)
  }

  function RequestFor(kind: Kind, pc: Pc): Handler {
    Handler(KeyFor(kind), 7, 0, Customer, MAIL, false, pc, 0, "", Claimed(kind, false, MAIL), 0)
  }

  function RowFor(kind: Kind): Row {
    Row(kind, Prepared, Customer, 7, 0, Normalized(kind, MAIL), None)
  }

  lemma Extend(acts: seq<Action>, a: Action, key: Key) returns (more: seq<Action>)
    ensures more == acts + [a] && Run(more) == Next(Run(acts), a)
    ensures CalmFrom(INITIAL, acts, key) && !IsRetry(Run(acts), a, key) ==> CalmFrom(INITIAL, more, key)
  {
    more := acts + [a];
    assert more[..|more| - 1] == acts;
  }

  /** A member's request finds no row. */
  lemma RequestFindsNothing(kind: Kind)
    ensures Next(Next(Next(INITIAL, Appoint(7, Member)), Begin(0, RequestFor(kind, Replaying))), Step(0, CLEAN))
         == State(map[], map[0 := RequestFor(kind, Preparing)], MEMBERS, map[], [], 0)
  {
    var s1 := Next(Next(INITIAL, Appoint(7, Member)), Begin(0, RequestFor(kind, Replaying)));
    assert s1 == State(map[], map[0 := RequestFor(kind, Replaying)], MEMBERS, map[], [], 0);
    assert Next(s1, Step(0, CLEAN)).handlers == map[0 := RequestFor(kind, Preparing)];
  }

  lemma UnpreparedRun(kind: Kind) returns (acts: seq<Action>)
    ensures CalmFrom(INITIAL, acts, KeyFor(kind))
    ensures Run(acts) == State(map[], map[0 := RequestFor(kind, Preparing)], MEMBERS, map[], [], 0)
  {
    RequestFindsNothing(kind);
    acts := Extend([], Appoint(7, Member), KeyFor(kind));
    acts := Extend(acts, Begin(0, RequestFor(kind, Replaying)), KeyFor(kind));
    acts := Extend(acts, Step(0, CLEAN), KeyFor(kind));
  }

  /** The request prepares the row, even while the account is being disabled. */
  lemma RequestPrepares(s: State, kind: Kind)
    requires s == State(map[], map[0 := RequestFor(kind, Preparing)], MEMBERS, s.disablings, [], 0)
    ensures Next(s, Step(0, CLEAN))
         == State(map[KeyFor(kind) := RowFor(kind)], map[0 := RequestFor(kind, Claiming)], MEMBERS, s.disablings,
                  [Inserted(KeyFor(kind), Normalized(kind, MAIL))], 0)
  {
    var s' := Next(s, Step(0, CLEAN));
    assert s'.handlers == map[0 := RequestFor(kind, Claiming)];
    assert s'.rows == map[KeyFor(kind) := RowFor(kind)];
  }

  /** One prepared row, and one request about to claim it. */
  lemma PreparedRun(kind: Kind) returns (acts: seq<Action>)
    ensures CalmFrom(INITIAL, acts, KeyFor(kind))
    ensures Run(acts) == State(map[KeyFor(kind) := RowFor(kind)], map[0 := RequestFor(kind, Claiming)], MEMBERS, map[],
                               [Inserted(KeyFor(kind), Normalized(kind, MAIL))], 0)
  {
    acts := UnpreparedRun(kind);
    RequestPrepares(Run(acts), kind);
    acts := Extend(acts, Step(0, CLEAN), KeyFor(kind));
  }

  /** A row of a kind while its claim lasts. */
  function HeldFor(kind: Kind): Row {
    RowFor(kind).(status := Sending, claimedAt := Some(0))
  }

  lemma PassTakesRow(rows: map<Key, Row>, key: Key, row: Row, now: int)
    requires rows == map[key := row] && IsStale(row, now - STALE + 1)
    ensures Recovered(rows, {key}, now) == map[key := row.(status := Uncertain)]
  {
  }

  /** The pass of five minutes later takes the row from the request that holds it. */
  lemma ClaimGoesStale(s: State, kind: Kind)
    requires s.rows == map[KeyFor(kind) := HeldFor(kind)] && s.now == 0
    ensures var s' := Next(Next(s, Tick(STALE)), RecoverPass({KeyFor(kind)}));
            && s'.rows == map[KeyFor(kind) := HeldFor(kind).(status := Uncertain)]
            && s'.handlers == s.handlers && s'.standings == s.standings && s'.disablings == s.disablings
            && s'.log == s.log
  {
    PassTakesRow(s.rows, KeyFor(kind), HeldFor(kind), STALE);
  }
}
