/** Which retries are safe: exactly those taken when nothing has arrived and that overtake nobody. */
module ProtocolRetry {
  import opened Basics
  import opened Text
  import opened DeliveryStore
  import opened Senders
  import opened Protocol
  import opened ProtocolSafety
  import opened ProtocolTruth

  // ---- Runs put together from pieces ----

  lemma {:induction false} RunFromAppend(s: State, a: seq<Action>, b: seq<Action>, key: Key)
    ensures RunFrom(s, a + b) == RunFrom(RunFrom(s, a), b)
    ensures CalmFrom(s, a, key) && CalmFrom(RunFrom(s, a), b, key) ==> CalmFrom(s, a + b, key)
  {
    if b == [] {
      assert a + b == a;
    } else {
      var n := |b| - 1;
      RunFromAppend(s, a, b[..n], key);
      assert (a + b)[..|a + b| - 1] == a + b[..n];
    }
  }

  lemma RunOne(s: State, a: Action, key: Key)
    ensures RunFrom(s, [a]) == Next(s, a)
    ensures CalmAt(s, a, key) ==> CalmFrom(s, [a], key)
  {
    assert [a][..0] == [];
  }

  const CLEAN := Input(Clean, false, Valid, None, None, SendRejected, false)

  /** Nothing about the row of `key` or anybody's standing has changed, only the history has grown. */
  ghost predicate Unmoved(s: State, s': State, key: Key) {
    && s'.standings == s.standings
    && key in s.rows && key in s'.rows && s'.rows[key] == s.rows[key]
    && Epoch(s'.log, key) == Epoch(s.log, key)
    && (DeclaredNotSent(key) in s'.log ==> DeclaredNotSent(key) in s.log)
    && (forall e :: e in s.log ==> e in s'.log)
  }

  lemma UnmovedStep(s: State, id: nat, input: Input)
    requires id in s.handlers && s.handlers[id].key in s.rows
    requires var pc := s.handlers[id].pc; pc.Checking? || pc.InFlight?
    ensures var s' := Next(s, Step(id, input));
            && Unmoved(s, s', s.handlers[id].key) && s'.handlers.Keys == s.handlers.Keys
            && (forall i :: i in s.handlers && i != id ==> s'.handlers[i] == s.handlers[i])
    ensures forall key :: !IsRetry(s, Step(id, input), key)
  {
    var h := s.handlers[id];
    LoggedFacts(s.log, Advance(h, SceneOf(s, h), input).event);
  }

  // ---- An overtaken request ----

  function Distance(h: Handler): nat {
    match h.pc case Checking(todo) => 2 + |todo| case InFlight => 1 case _ => 0
  }

  lemma CleanStepAdvances(h: Handler, at: Scene)
    requires MayReject(h) && h.pc != Failing(false)
    ensures var h' := Advance(h, at, CLEAN).handler;
            MayReject(h') && h'.key == h.key && Distance(h') < Distance(h)
  {
  }

  /** A request that may still report a definite failure can be brought to the point of reporting it. */
  lemma DriveToRejection(s: State, id: nat) returns (acts: seq<Action>)
    requires id in s.handlers && s.handlers[id].key in s.rows && MayReject(s.handlers[id])
    ensures CalmFrom(s, acts, s.handlers[id].key)
    ensures var s' := RunFrom(s, acts);
            && Unmoved(s, s', s.handlers[id].key) && id in s'.handlers
            && s'.handlers[id].key == s.handlers[id].key && s'.handlers[id].pc == Failing(false)
    decreases Distance(s.handlers[id])
  {
    acts := [];
    if s.handlers[id].pc != Failing(false) {
      var a := Step(id, CLEAN);
      UnmovedStep(s, id, CLEAN);
      RunOne(s, a, s.handlers[id].key);
      CleanStepAdvances(s.handlers[id], SceneOf(s, s.handlers[id]));
      var rest := DriveToRejection(Next(s, a), id);
      acts := [a] + rest;
      RunFromAppend(s, [a], rest, s.handlers[id].key);
    }
  }

  /** A definite failure that lands on somebody else's claim. */
  lemma LandRejection(s: State, id: nat) returns (acts: seq<Action>)
    requires id in s.handlers && s.handlers[id].pc == Failing(false)
    requires var key := s.handlers[id].key; key in s.rows && s.rows[key].status.Sending?
    ensures CalmFrom(s, acts, s.handlers[id].key)
    ensures var key, s' := s.handlers[id].key, RunFrom(s, acts);
            key in s'.rows && s'.rows[key].status.Failed? && s'.log == s.log
  {
    RunOne(s, Step(id, CLEAN), s.handlers[id].key);
    acts := [Step(id, CLEAN)];
  }

  /** The request that was overtaken now reports its failure. */
  lemma LateRejection(s: State, id: nat) returns (acts: seq<Action>)
    requires id in s.handlers && MayReject(s.handlers[id])
    requires var key := s.handlers[id].key;
             && key in s.rows && s.rows[key].status.Sending?
             && !NothingArrived(s.log, key) && DeclaredNotSent(key) !in s.log
    ensures CalmFrom(s, acts, s.handlers[id].key) && !Truthful(RunFrom(s, acts), s.handlers[id].key)
  {
    var key := s.handlers[id].key;
    var n :| Delivered(key, n) in s.log;
    var a1 := DriveToRejection(s, id);
    var s1 := RunFrom(s, a1);
    var a2 := LandRejection(s1, id);
    RunFromAppend(s, a1, a2, s.handlers[id].key);
    acts := a1 + a2;
    assert Delivered(key, n) in RunFrom(s, acts).log;
  }

  // ---- A request whose mail arrives ----

  lemma {:induction false} FreshId(used: set<nat>) returns (id: nat)
    ensures forall i :: i in used ==> i < id
  {
    if used == {} {
      id := 0;
    } else {
      var x :| x in used;
      var below := FreshId(used - {x});
      id := if below <= x then x + 1 else below;
      assert forall i :: i in used ==> i == x || i in used - {x};
    }
  }

  /** A replay of the original request: the idempotency key finds the row and goes on to claim it. */
  function Replay(key: Key, row: Row): Handler {
    Handler(key, key.actor, row.request, Customer, row.envelope, false, Replaying, 0, "",
            Claimed(key.kind, false, row.envelope), 0)
  }

  lemma BeginReplay(s: State, id: nat, key: Key) returns (acts: seq<Action>)
    requires id !in s.handlers && key in s.rows && s.rows[key].status.Prepared?
    ensures CalmFrom(s, acts, key)
    ensures RunFrom(s, acts) == s.(handlers := s.handlers[id := Replay(key, s.rows[key]).(pc := Claiming)])
  {
    var h := Replay(key, s.rows[key]);
    var b, c := Begin(id, h), Step(id, CLEAN);
    var s1 := Next(s, b);
    RunOne(s, b, key);
    RunOne(s1, c, key);
    acts := [b] + [c];
    RunFromAppend(s, [b], [c], key);
    assert Advance(h, SceneOf(s1, h), CLEAN) == Move(h.(pc := Claiming), Some(s.rows[key]), None);
    assert s1.rows[key := s.rows[key]] == s.rows;
    assert s1.handlers[id := h.(pc := Claiming)] == s.handlers[id := h.(pc := Claiming)];
  }

  lemma ClaimReplay(s: State, id: nat, key: Key) returns (acts: seq<Action>)
    requires id in s.handlers && key in s.rows && s.rows[key].status.Prepared? && s.rows[key].actor == key.actor
    requires Writes(StandingOf(s, key.actor))
    requires exists row :: s.handlers[id] == Replay(key, row).(pc := Claiming)
    ensures CalmFrom(s, acts, key)
    ensures var s' := RunFrom(s, acts);
            && key in s'.rows && s'.rows[key] == s.rows[key].(status := Sending, claimedAt := Some(s.now))
            && Epoch(s'.log, key) == Epoch(s.log, key) && s'.standings == s.standings
            && (DeclaredNotSent(key) in s'.log ==> DeclaredNotSent(key) in s.log)
            && s.handlers.Keys == s'.handlers.Keys
            && (forall i :: i in s.handlers && i != id ==> s'.handlers[i] == s.handlers[i])
            && s'.handlers[id].key == key && s'.handlers[id].epoch == Epoch(s.log, key)
            && s'.handlers[id].pc == Checking([LoadAccount, MatchSender])
            && s'.handlers[id].claim.envelope == s.rows[key].envelope
  {
    var a := Step(id, CLEAN);
    RunOne(s, a, key);
    acts := [a];
    LoggedFacts(s.log, Advance(s.handlers[id], SceneOf(s, s.handlers[id]), CLEAN).event);
    assert forall kind :: Checks(kind, false) == [LoadAccount, MatchSender];
  }

  /** One more check passed, or the call made, or its acceptance heard. */
  lemma DeliverStep(s: State, id: nat, input: Input) returns (acts: seq<Action>)
    requires id in s.handlers && s.handlers[id].key in s.rows
    requires var pc := s.handlers[id].pc; pc.Checking? || pc.InFlight?
    ensures CalmFrom(s, acts, s.handlers[id].key)
    ensures var h, s' := s.handlers[id], RunFrom(s, acts);
            var m := Advance(h, SceneOf(s, h), input);
            && Unmoved(s, s', h.key) && s'.handlers == s.handlers[id := m.handler]
            && (m.event.Some? ==> m.event.value in s'.log)
  {
    acts := [Step(id, input)];
    UnmovedStep(s, id, input);
    RunOne(s, Step(id, input), s.handlers[id].key);
  }

  lemma PassCheck(s: State, id: nat, input: Input, h1: Handler) returns (acts: seq<Action>)
    requires id in s.handlers && s.handlers[id].key in s.rows && s.handlers[id].pc.Checking?
    requires h1 == Advance(s.handlers[id], SceneOf(s, s.handlers[id]), input).handler
    ensures CalmFrom(s, acts, s.handlers[id].key)
    ensures Unmoved(s, RunFrom(s, acts), s.handlers[id].key) && RunFrom(s, acts).handlers == s.handlers[id := h1]
  {
    acts := DeliverStep(s, id, input);
  }

  lemma ChecksPass(h: Handler, at: Scene)
    requires TrimSpace(h.claim.envelope.sender) == h.claim.envelope.sender
    ensures h.pc == Checking([LoadAccount, MatchSender]) ==>
              Advance(h, at, CLEAN.(account := Some(h.claim.envelope.sender))).handler
              == h.(pc := Checking([MatchSender]), from := h.claim.envelope.sender)
    ensures h.pc == Checking([MatchSender]) && h.from == h.claim.envelope.sender ==>
              Advance(h, at, CLEAN).handler == h.(pc := Checking([]))
  {
    assert [LoadAccount, MatchSender][1..] == [MatchSender] && [MatchSender][1..] == [];
  }

  lemma PassChecks(s: State, id: nat) returns (acts: seq<Action>)
    requires id in s.handlers && s.handlers[id].key in s.rows
    requires s.handlers[id].pc == Checking([LoadAccount, MatchSender])
    requires TrimSpace(s.handlers[id].claim.envelope.sender) == s.handlers[id].claim.envelope.sender
    ensures CalmFrom(s, acts, s.handlers[id].key)
    ensures var h, s' := s.handlers[id], RunFrom(s, acts);
            && Unmoved(s, s', h.key)
            && s'.handlers == s.handlers[id := h.(pc := Checking([]), from := h.claim.envelope.sender)]
  {
    var h := s.handlers[id];
    var sender := h.claim.envelope.sender;
    var h1 := h.(pc := Checking([MatchSender]), from := sender);
    ChecksPass(h, SceneOf(s, h));
    var a1 := PassCheck(s, id, CLEAN.(account := Some(sender)), h1);
    var s1 := RunFrom(s, a1);
    ChecksPass(h1, SceneOf(s1, h1));
    var a2 := PassCheck(s1, id, CLEAN, h1.(pc := Checking([])));
    RunFromAppend(s, a1, a2, h.key);
    acts := a1 + a2;
  }

  lemma CallAndDeliver(s: State, id: nat) returns (acts: seq<Action>)
    requires id in s.handlers && s.handlers[id].key in s.rows && s.handlers[id].pc == Checking([])
    ensures CalmFrom(s, acts, s.handlers[id].key)
    ensures var h, s' := s.handlers[id], RunFrom(s, acts);
            && Unmoved(s, s', h.key)
            && s'.handlers == s.handlers[id := h.(pc := Completing)]
            && Delivered(h.key, h.epoch) in s'.log
  {
    var h := s.handlers[id];
    var a1 := DeliverStep(s, id, CLEAN);
    var s1 := RunFrom(s, a1);
    assert s1.handlers == s.handlers[id := h.(pc := InFlight)];
    var a2 := DeliverStep(s1, id, CLEAN.(outcome := SendAccepted));
    RunFromAppend(s, a1, a2, s.handlers[id].key);
    acts := a1 + a2;
  }

  /** The provider takes the mail of a request whose sender is still connected. */
  lemma DeliverMail(s: State, id: nat) returns (acts: seq<Action>)
    requires id in s.handlers && s.handlers[id].key in s.rows
    requires s.handlers[id].pc == Checking([LoadAccount, MatchSender])
    requires TrimSpace(s.handlers[id].claim.envelope.sender) == s.handlers[id].claim.envelope.sender
    ensures CalmFrom(s, acts, s.handlers[id].key)
    ensures var h, s' := s.handlers[id], RunFrom(s, acts);
            && Unmoved(s, s', h.key) && s'.handlers.Keys == s.handlers.Keys
            && (forall i :: i in s.handlers && i != id ==> s'.handlers[i] == s.handlers[i])
            && Delivered(h.key, h.epoch) in s'.log
            && s'.handlers[id].key == h.key && s'.handlers[id].actor == h.actor
            && s'.handlers[id].pc == Completing
  {
    var a1 := PassChecks(s, id);
    var a2 := CallAndDeliver(RunFrom(s, a1), id);
    RunFromAppend(s, a1, a2, s.handlers[id].key);
    acts := a1 + a2;
  }

  /** A new request claims the row and its mail arrives; nobody else has moved. */
  lemma ReplayDelivers(s: State, id: nat, key: Key) returns (acts: seq<Action>)
    requires id !in s.handlers && key in s.rows && s.rows[key].status.Prepared? && s.rows[key].actor == key.actor
    requires Writes(StandingOf(s, key.actor))
    requires TrimSpace(s.rows[key].envelope.sender) == s.rows[key].envelope.sender
    ensures CalmFrom(s, acts, key)
    ensures var s' := RunFrom(s, acts);
            && key in s'.rows && s'.rows[key] == s.rows[key].(status := Sending, claimedAt := Some(s.now))
            && !NothingArrived(s'.log, key) && s'.standings == s.standings
            && (DeclaredNotSent(key) in s'.log ==> DeclaredNotSent(key) in s.log)
            && s'.handlers.Keys == s.handlers.Keys + {id}
            && (forall i :: i in s.handlers ==> s'.handlers[i] == s.handlers[i])
            && s'.handlers[id].key == key
            && s'.handlers[id].pc == Completing
  {
    var a1 := BeginReplay(s, id, key);
    var s1 := RunFrom(s, a1);
    assert Writes(StandingOf(s1, key.actor));
    var a2 := ClaimReplay(s1, id, key);
    var s2 := RunFrom(s1, a2);
    var a3 := DeliverMail(s2, id);
    RunFromAppend(s1, a2, a3, key);
    RunFromAppend(s, a1, a2 + a3, key);
    acts := a1 + (a2 + a3);
  }

  // ---- Unsafe retries ----

  lemma RetryMove(h: Handler, at: Scene, input: Input)
    ensures var m := Advance(h, at, input);
            m.event.Some? && m.event.value.Retried? ==>
              && m.event.value.key == h.key && !MayReject(h) && !MayReject(m.handler)
              && at.row.Some? && at.row.value.status.Uncertain? && at.row.value.actor == h.actor
              && m.row == Some(at.row.value.(status := Prepared, claimedAt := None))
  {
  }

  /** What a retry does to the system: it opens the row, and is logged. */
  lemma RetryMoves(s: State, a: Action, key: Key)
    requires IsRetry(s, a, key)
    ensures var s' := Next(s, a);
            && key in s.rows && s.rows[key].status.Uncertain?
            && key in s'.rows && s'.rows[key].status.Prepared? && s'.log == s.log + [Retried(key)]
            && s'.handlers.Keys == s.handlers.Keys
            && (forall i :: i in s.handlers && (MayReject(s.handlers[i]) || MayReject(s'.handlers[i])) ==>
                  s'.handlers[i] == s.handlers[i])
  {
    var h := s.handlers[a.id];
    RetryMove(h, SceneOf(s, h), a.input);
  }

  lemma RetryOpensRow(s: State, a: Action, key: Key)
    requires Inv(s) && IsRetry(s, a, key)
    ensures var s' := Next(s, a);
            key in s'.rows && RowOk(s'.log, key, s'.rows[key]) && DeclaredNotSent(key) !in s'.log
  {
    RetryMoves(s, a, key);
    assert DeclaredNotSent(key) in s.log ==> EventOk(s.log, s.rows, DeclaredNotSent(key));
    NextKeeps(s, a);
  }

  /** The user is made a member, and the account disabled at once. */
  function DisableNow(user: nat): seq<Action> {
    [Appoint(user, Member), StartDisable(0, user), Disable(0)]
  }

  lemma DisablingFailsRow(s: State, key: Key)
    requires key in s.rows && s.rows[key].status.Prepared?
    ensures var s' := RunFrom(s, DisableNow(key.actor));
            key in s'.rows && s'.rows[key].status.Failed? && s'.log == s.log
    ensures CalmFrom(s, DisableNow(key.actor), key)
  {
    var a, b, c := Appoint(key.actor, Member), StartDisable(0, key.actor), Disable(0);
    var s1 := Next(s, a);
    var s2 := Next(s1, b);
    RunOne(s, a, key);
    RunOne(s1, b, key);
    RunOne(s2, c, key);
    RunFromAppend(s1, [b], [c], key);
    RunFromAppend(s, [a], [b] + [c], key);
    assert DisableNow(key.actor) == [a] + ([b] + [c]);
    assert TakesEffect(s2, s2.disablings[0]);
  }

  /** Mail that was not rejected arrives, and its row is failed, say because the account is disabled. */
  lemma LateMailLies(s: State, key: Key, n: nat, m: Message) returns (acts: seq<Action>)
    requires key in s.rows && s.rows[key].status.Prepared? && DeclaredNotSent(key) !in s.log
    requires MayArrive(s, key, n, m)
    ensures CalmFrom(s, acts, key) && !Truthful(RunFrom(s, acts), key)
  {
    var arrive := Arrive(key, n, m);
    RunOne(s, arrive, key);
    var s1 := Next(s, arrive);
    DisablingFailsRow(s1, key);
    RunFromAppend(s, [arrive], DisableNow(key.actor), key);
    acts := [arrive] + DisableNow(key.actor);
    assert Delivered(key, n) in s1.log;
  }

  /** A late failure that lands on a new claim calls its mail failed, though that mail arrives. */
  lemma OvertakenLies(s: State, key: Key, late: nat) returns (acts: seq<Action>)
    requires key in s.rows && s.rows[key].status.Prepared? && s.rows[key].actor == key.actor
    requires TrimSpace(s.rows[key].envelope.sender) == s.rows[key].envelope.sender
    requires DeclaredNotSent(key) !in s.log
    requires late in s.handlers && MayReject(s.handlers[late]) && s.handlers[late].key == key
    ensures CalmFrom(s, acts, key) && !Truthful(RunFrom(s, acts), key)
  {
    var id := FreshId(s.handlers.Keys);
    var appoint := Appoint(key.actor, Member);
    RunOne(s, appoint, key);
    var s1 := Next(s, appoint);
    var a1 := ReplayDelivers(s1, id, key);
    var a2 := LateRejection(RunFrom(s1, a1), late);
    RunFromAppend(s1, a1, a2, key);
    RunFromAppend(s, [appoint], a1 + a2, key);
    acts := [appoint] + (a1 + a2);
  }

  lemma OvertakingCanLie(s: State, a: Action, key: Key) returns (more: seq<Action>)
    requires Inv(s) && IsRetry(s, a, key) && !NobodyRejects(s.handlers, key)
    ensures CalmFrom(Next(s, a), more, key) && !Truthful(RunFrom(Next(s, a), more), key)
  {
    var late :| late in s.handlers && MayReject(s.handlers[late]) && s.handlers[late].key == key;
    RetryMoves(s, a, key);
    RetryOpensRow(s, a, key);
    more := OvertakenLies(Next(s, a), key, late);
  }

  lemma OpenCallLies(s: State, key: Key) returns (acts: seq<Action>)
    requires key in s.rows && s.rows[key].status.Prepared? && DeclaredNotSent(key) !in s.log
    requires !AllRejected(s.log, key) && NobodyRejects(s.handlers, key)
    ensures CalmFrom(s, acts, key) && !Truthful(RunFrom(s, acts), key)
  {
    var n, m :| Called(key, n, m) in s.log && Rejected(key, n) !in s.log;
    acts := LateMailLies(s, key, n, m);
  }

  lemma RetryStaysOpen(s: State, a: Action, key: Key)
    requires IsRetry(s, a, key)
    ensures NobodyRejects(s.handlers, key) ==> NobodyRejects(Next(s, a).handlers, key)
    ensures AllRejected(Next(s, a).log, key) ==> AllRejected(s.log, key)
  {
    RetryMoves(s, a, key);
    assert forall e :: e in Next(s, a).log <==> e in s.log || e == Retried(key);
  }

  /** Nobody is overtaken, but an earlier call is still open: its mail may arrive yet, or has arrived. */
  lemma RetryOfOpenCanLie(s: State, a: Action, key: Key) returns (more: seq<Action>)
    requires Inv(s) && IsRetry(s, a, key) && !AllRejected(s.log, key) && NobodyRejects(s.handlers, key)
    ensures CalmFrom(Next(s, a), more, key) && !Truthful(RunFrom(Next(s, a), more), key)
  {
    RetryMoves(s, a, key);
    RetryOpensRow(s, a, key);
    RetryStaysOpen(s, a, key);
    more := OpenCallLies(Next(s, a), key);
  }

  /** A retry that is not calm has a continuation, with no further retry, that records as failed mail that arrives. */
  lemma UnsafeRetryCanLie(s: State, a: Action, key: Key) returns (more: seq<Action>)
    requires Inv(s) && IsRetry(s, a, key) && !CalmAt(s, a, key)
    ensures CalmFrom(Next(s, a), more, key) && !Truthful(RunFrom(Next(s, a), more), key)
  {
    if NobodyRejects(s.handlers, key) {
      more := RetryOfOpenCanLie(s, a, key);
    } else {
      more := OvertakingCanLie(s, a, key);
    }
  }

  lemma CalmRetryIsSafe(s: State, a: Action, key: Key, more: seq<Action>)
    requires Inv(s) && Calm(s, key) && CalmAt(s, a, key) && CalmFrom(Next(s, a), more, key)
    ensures Truthful(RunFrom(Next(s, a), more), key)
  {
    NextKeeps(s, a);
    NextStaysCalm(s, a, key);
    CalmRunsStayCalm(Next(s, a), more, key);
    CalmIsTruthful(RunFrom(Next(s, a), more), key);
  }

  /**
   * A retry of a key so far retried calmly keeps every failure recorded for it true, whatever calm run follows, if
   * and only if the provider has definitely rejected every call made for the key, and no earlier request on it may
   * still report a definite failure.
   */
  lemma RetryIsSafeExactly(acts: seq<Action>, a: Action, key: Key)
    requires CalmFrom(INITIAL, acts, key) && IsRetry(Run(acts), a, key)
    ensures var s := Run(acts);
            AllRejected(s.log, key) && NobodyRejects(s.handlers, key)
            <==> forall more :: CalmFrom(Next(s, a), more, key) ==> Truthful(RunFrom(Next(s, a), more), key)
  {
    var s := Run(acts);
    CalmRunsStayCalm(INITIAL, acts, key);
    if CalmAt(s, a, key) {
      forall more | CalmFrom(Next(s, a), more, key) ensures Truthful(RunFrom(Next(s, a), more), key) {
        CalmRetryIsSafe(s, a, key, more);
      }
    } else {
      var more := UnsafeRetryCanLie(s, a, key);
    }
  }

  // ---- Once a call has been answered ambiguously ----

  lemma MoveStaysOpen(h: Handler, at: Scene, input: Input)
    ensures var m := Advance(h, at, input);
            && (m.event.Some? && m.event.value.Rejected? ==>
                  h.pc.InFlight? && m.event.value == Rejected(h.key, h.epoch))
            && (m.handler.pc.InFlight? ==>
                  h.pc == Checking([]) && m.handler.key == h.key && m.handler.epoch == h.epoch)
  {
  }

  /** The call is over, and nobody is about to make it again. */
  lemma OpenIsOver(s: State, h: Handler, key: Key, n: nat, m: Message)
    requires Called(key, n, m) in s.log && HandlerOk(s.log, s.rows, h) && h.pc.Checking?
    ensures h.key != key || h.epoch != n
  {
  }

  lemma MoveLeavesCall(s: State, h: Handler, input: Input, key: Key, n: nat, m: Message)
    requires HandlerOk(s.log, s.rows, h) && Called(key, n, m) in s.log
    requires h.pc.InFlight? ==> !(h.key == key && h.epoch == n)
    ensures var move := Advance(h, SceneOf(s, h), input);
            && move.event != Some(Rejected(key, n))
            && (move.handler.pc.InFlight? ==> !(move.handler.key == key && move.handler.epoch == n))
  {
    if h.pc.Checking? {
      OpenIsOver(s, h, key, n, m);
    }
    MoveStaysOpen(h, SceneOf(s, h), input);
  }

  lemma StepStaysOpen(s: State, id: nat, input: Input, key: Key, n: nat, m: Message)
    requires Inv(s) && id in s.handlers && MayArrive(s, key, n, m)
    ensures MayArrive(Next(s, Step(id, input)), key, n, m)
  {
    var h := s.handlers[id];
    MoveLeavesCall(s, h, input, key, n, m);
    LoggedFacts(s.log, Advance(h, SceneOf(s, h), input).event);
  }

  lemma CrashStaysOpen(s: State, id: nat, delivered: bool, key: Key, n: nat, m: Message)
    requires id in s.handlers && MayArrive(s, key, n, m)
    ensures MayArrive(Next(s, Crash(id, delivered)), key, n, m)
  {
    LoggedFacts(s.log, CrashEvent(s.handlers[id], delivered));
  }

  lemma OtherStaysOpen(s: State, a: Action, key: Key, n: nat, m: Message)
    requires MayArrive(s, key, n, m) && !a.Step? && !a.Crash?
    ensures MayArrive(Next(s, a), key, n, m)
  {
    var s' := Next(s, a);
    assert s'.log == s.log || (a.Arrive? && s'.log == s.log + [Delivered(a.key, a.epoch)]);
    assert s'.handlers == s.handlers
        || (a.Begin? && a.id !in s.handlers && s'.handlers == s.handlers[a.id := a.handler]);
  }

  lemma NextStaysOpen(s: State, a: Action, key: Key, n: nat, m: Message)
    requires Inv(s) && MayArrive(s, key, n, m)
    ensures MayArrive(Next(s, a), key, n, m)
  {
    match a {
      case Step(id, input) =>
        if id in s.handlers {
          StepStaysOpen(s, id, input, key, n, m);
        }
      case Crash(id, delivered) =>
        if id in s.handlers {
          CrashStaysOpen(s, id, delivered, key, n, m);
        }
      case _ => OtherStaysOpen(s, a, key, n, m);
    }
  }

  lemma {:induction false} StaysOpen(s: State, more: seq<Action>, key: Key, n: nat, m: Message)
    requires Inv(s) && MayArrive(s, key, n, m)
    ensures Inv(RunFrom(s, more)) && MayArrive(RunFrom(s, more), key, n, m)
  {
    if more != [] {
      StaysOpen(s, more[..|more| - 1], key, n, m);
      NextKeeps(RunFrom(s, more[..|more| - 1]), more[|more| - 1]);
      NextStaysOpen(RunFrom(s, more[..|more| - 1]), more[|more| - 1], key, n, m);
    }
  }

  /**
   * After a call that is over and was not definitely rejected, no retry of its key is ever safe again, however long
   * its sender waits and whatever has been found in the meantime.
   */
  lemma AmbiguityIsNeverSafe(acts: seq<Action>, more: seq<Action>, a: Action, key: Key, n: nat, m: Message)
    returns (after: seq<Action>)
    requires MayArrive(Run(acts), key, n, m) && IsRetry(Run(acts + more), a, key)
    ensures var s := Next(Run(acts + more), a); CalmFrom(s, after, key) && !Truthful(RunFrom(s, after), key)
  {
    RunFromAppend(INITIAL, acts, more, key);
    RunKeeps(acts);
    StaysOpen(Run(acts), more, key, n, m);
    assert !AllRejected(Run(acts + more).log, key);
    after := UnsafeRetryCanLie(Run(acts + more), a, key);
  }
}
