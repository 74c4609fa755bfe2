/**
 * When a definite `Failed` can be believed: exactly when no retry is taken while an earlier call may still be
 * answered by an arrival, or past a request that may still report a failure.
 */
module ProtocolTruth {
  import opened Basics
  import opened DeliveryStore
  import opened Protocol
  import opened ProtocolSafety

  /** The request has claimed the row and may yet report a definite failure. */
  predicate MayReject(h: Handler) {
    h.pc.Checking? || h.pc.InFlight? || h.pc == Failing(false)
  }

  function EventOf(s: State, a: Action): Option<Event> {
    if a.Step? && a.id in s.handlers then
      var h := s.handlers[a.id];
      Advance(h, SceneOf(s, h), a.input).event
    else None
  }

  predicate IsRetry(s: State, a: Action, key: Key) {
    EventOf(s, a) == Some(Retried(key))
  }

  ghost predicate NothingArrived(log: seq<Event>, key: Key) {
    forall n :: Delivered(key, n) !in log
  }

  /** The provider has definitely rejected every call made so far, so nothing of them can arrive any more. */
  ghost predicate AllRejected(log: seq<Event>, key: Key) {
    forall n, m :: Called(key, n, m) in log ==> Rejected(key, n) in log
  }

  ghost predicate NobodyRejects(handlers: map<nat, Handler>, key: Key) {
    forall id :: id in handlers && MayReject(handlers[id]) ==> handlers[id].key != key
  }

  /** The key is retried only when nothing can arrive any more and no earlier request may still report a failure. */
  ghost predicate CalmAt(s: State, a: Action, key: Key) {
    IsRetry(s, a, key) ==> AllRejected(s.log, key) && NobodyRejects(s.handlers, key)
  }

  ghost predicate CalmFrom(s: State, acts: seq<Action>, key: Key) {
    acts != [] ==>
      var n := |acts| - 1;
      CalmFrom(s, acts[..n], key) && CalmAt(RunFrom(s, acts[..n]), acts[n], key)
  }

  /** A row recorded as failed, other than on a person's word, stands for mail that never arrived. */
  ghost predicate Truthful(s: State, key: Key) {
    key in s.rows && s.rows[key].status.Failed? && DeclaredNotSent(key) !in s.log ==> NothingArrived(s.log, key)
  }

  // ---- Calm runs are truthful ----

  /** Who may reject does so for the current epoch. */
  ghost predicate Current(log: seq<Event>, handlers: map<nat, Handler>, key: Key) {
    forall id :: id in handlers && handlers[id].key == key && MayReject(handlers[id]) ==>
      handlers[id].epoch == Epoch(log, key)
  }

  /** Only the call of the current epoch is still open. */
  ghost predicate OpenLast(log: seq<Event>, key: Key) {
    forall n, m :: Called(key, n, m) in log && Rejected(key, n) !in log ==> n == Epoch(log, key)
  }

  /** Nothing speaks against calling the row failed, now or later. */
  ghost predicate Quiet(s: State, key: Key) {
    AllRejected(s.log, key) && NobodyRejects(s.handlers, key)
  }

  ghost predicate Settled(s: State, key: Key) {
    key in s.rows && s.rows[key].status.Failed? && DeclaredNotSent(key) !in s.log ==> Quiet(s, key)
  }

  ghost predicate Calm(s: State, key: Key) {
    Current(s.log, s.handlers, key) && OpenLast(s.log, key) && Settled(s, key)
  }

  /** Where a request that may reject, and the events about calls and retries, come from. */
  lemma RejectSource(h: Handler, at: Scene, input: Input)
    ensures var m := Advance(h, at, input);
            && (MayReject(m.handler) ==>
                  && !(m.event.Some? && m.event.value.Retried?)
                  && (if MayReject(h) then m.handler.epoch == h.epoch
                      else at.row.Some? && at.row.value.status.Prepared? && m.handler.epoch == at.epoch))
            && (m.event.Some? && m.event.value.Called? ==> h.pc.Checking? && m.event.value.epoch == h.epoch)
            && (m.event.Some? && m.event.value.Retried? ==> at.row.Some? && at.row.value.status.Uncertain?)
  {
  }

  lemma StepElsewhere(s: State, id: nat, input: Input, key: Key)
    requires Calm(s, key) && id in s.handlers && s.handlers[id].key != key
    ensures Calm(Next(s, Step(id, input)), key)
  {
    var h := s.handlers[id];
    MoveIsLocal(h, SceneOf(s, h), input);
    LoggedFacts(s.log, Advance(h, SceneOf(s, h), input).event);
  }

  lemma StepStaysCurrent(s: State, id: nat, input: Input, key: Key)
    requires Calm(s, key) && id in s.handlers && s.handlers[id].key == key && CalmAt(s, Step(id, input), key)
    ensures var s' := Next(s, Step(id, input)); Current(s'.log, s'.handlers, key)
  {
    var h := s.handlers[id];
    RejectSource(h, SceneOf(s, h), input);
    MoveIsLocal(h, SceneOf(s, h), input);
    LoggedFacts(s.log, Advance(h, SceneOf(s, h), input).event);
  }

  lemma StaysOpenLast(log: seq<Event>, event: Option<Event>, key: Key)
    requires OpenLast(log, key)
    requires event.Some? && event.value.Called? && event.value.key == key ==> event.value.epoch == Epoch(log, key)
    requires event == Some(Retried(key)) ==> AllRejected(log, key)
    ensures OpenLast(Logged(log, event), key)
  {
    LoggedFacts(log, event);
  }

  lemma StepStaysOpenLast(s: State, id: nat, input: Input, key: Key)
    requires Calm(s, key) && id in s.handlers && s.handlers[id].key == key && CalmAt(s, Step(id, input), key)
    ensures OpenLast(Next(s, Step(id, input)).log, key)
  {
    var h := s.handlers[id];
    RejectSource(h, SceneOf(s, h), input);
    StaysOpenLast(s.log, Advance(h, SceneOf(s, h), input).event, key);
  }

  /** How a row comes to be failed by a request's step. */
  lemma FailedBy(h: Handler, at: Scene, input: Input)
    ensures var m := Advance(h, at, input);
            m.row.Some? && m.row.value.status.Failed? ==>
              || at.row == m.row
              || (at.row.Some? && at.row.value.status.Prepared? && h.pc.Claiming?
                  && m.event.None? && m.handler.pc.Finished?)
              || (h.pc == Failing(false) && m.event.None? && m.handler.pc.Finished?)
              || m.event == Some(DeclaredNotSent(h.key))
  {
  }

  /** Nothing has happened yet in the epoch of a claimable row, so in a calm system nothing is open at all. */
  lemma PreparedIsQuiet(s: State, key: Key)
    requires Inv(s) && Calm(s, key) && key in s.rows && s.rows[key].status.Prepared?
    ensures Quiet(s, key)
  {
    assert RowOk(s.log, key, s.rows[key]);
    FreshEpoch(s.log, s.rows, key);
    forall id | id in s.handlers && MayReject(s.handlers[id]) ensures s.handlers[id].key != key {
      assert HandlerOk(s.log, s.rows, s.handlers[id]);
    }
  }

  /** A definite failure is reported by the one request of the current attempt, whose call, if any, was rejected. */
  lemma RejecterIsAlone(s: State, id: nat, key: Key)
    requires Inv(s) && Calm(s, key) && id in s.handlers
    requires s.handlers[id].key == key && s.handlers[id].pc == Failing(false)
    ensures AllRejected(s.log, key)
    ensures forall i :: i in s.handlers && i != id && MayReject(s.handlers[i]) ==> s.handlers[i].key != key
  {
    assert HandlerOk(s.log, s.rows, s.handlers[id]);
  }

  lemma StepHere(s: State, id: nat, input: Input)
    requires id in s.handlers && Settled(s, s.handlers[id].key)
    requires var h := s.handlers[id];
             (h.key in s.rows && s.rows[h.key].status.Prepared?) || h.pc == Failing(false) ==>
               && AllRejected(s.log, h.key)
               && forall i :: i in s.handlers && i != id && MayReject(s.handlers[i]) ==> s.handlers[i].key != h.key
    ensures Settled(Next(s, Step(id, input)), s.handlers[id].key)
  {
    var h := s.handlers[id];
    RejectSource(h, SceneOf(s, h), input);
    MoveIsLocal(h, SceneOf(s, h), input);
    FailedBy(h, SceneOf(s, h), input);
    LoggedFacts(s.log, Advance(h, SceneOf(s, h), input).event);
  }

  lemma StepStaysCalm(s: State, id: nat, input: Input, key: Key)
    requires Inv(s) && Calm(s, key) && id in s.handlers && CalmAt(s, Step(id, input), key)
    ensures Calm(Next(s, Step(id, input)), key)
  {
    var h := s.handlers[id];
    if h.key != key {
      StepElsewhere(s, id, input, key);
    } else {
      StepStaysCurrent(s, id, input, key);
      StepStaysOpenLast(s, id, input, key);
      if key in s.rows && s.rows[key].status.Prepared? {
        PreparedIsQuiet(s, key);
      }
      if h.pc == Failing(false) {
        RejecterIsAlone(s, id, key);
      }
      StepHere(s, id, input);
    }
  }

  lemma ArrivalStaysCalm(s: State, handlers': map<nat, Handler>, event: Option<Event>, key: Key)
    requires Calm(s, key) && (event.Some? ==> event.value.Delivered?)
    requires forall id :: id in handlers' && MayReject(handlers'[id]) ==>
               id in s.handlers && handlers'[id] == s.handlers[id]
    ensures Calm(s.(handlers := handlers', log := Logged(s.log, event)), key)
  {
    LoggedFacts(s.log, event);
  }

  lemma CrashStaysCalm(s: State, id: nat, delivered: bool, key: Key)
    requires Calm(s, key) && id in s.handlers
    ensures Calm(Next(s, Crash(id, delivered)), key)
  {
    ArrivalStaysCalm(s, Next(s, Crash(id, delivered)).handlers, CrashEvent(s.handlers[id], delivered), key);
  }

  lemma OutsiderStaysCalm(s: State, rows': map<Key, Row>, now: int, key: Key)
    requires Inv(s) && Calm(s, key) && Bulk(s.rows, rows', now)
    ensures Calm(s.(rows := rows'), key)
  {
    if key in s.rows && s.rows[key].status.Prepared? {
      PreparedIsQuiet(s, key);
    }
  }

  lemma DisableStaysCalm(s: State, id: nat, key: Key)
    requires Inv(s) && Calm(s, key)
    ensures Calm(Next(s, Disable(id)), key)
  {
    if id in s.disablings && TakesEffect(s, s.disablings[id]) {
      OutsiderStaysCalm(s, Quiesced(s.rows, s.disablings[id]), s.disablings[id].began, key);
    }
  }

  lemma NextStaysCalm(s: State, a: Action, key: Key)
    requires Inv(s) && Calm(s, key) && CalmAt(s, a, key)
    ensures Calm(Next(s, a), key)
  {
    match a {
      case Begin(_, _) =>
      case Step(id, input) =>
        if id in s.handlers {
          StepStaysCalm(s, id, input, key);
        }
      case Crash(id, delivered) =>
        if id in s.handlers {
          CrashStaysCalm(s, id, delivered, key);
        }
      case Arrive(k, n, _) => ArrivalStaysCalm(s, s.handlers, Some(Delivered(k, n)), key);
      case RecoverPass(keys) => OutsiderStaysCalm(s, Recovered(s.rows, keys, s.now), s.now, key);
      case StartDisable(_, _) =>
      case Disable(id) => DisableStaysCalm(s, id, key);
      case Appoint(_, _) =>
      case Tick(_) =>
    }
  }

  lemma {:induction false} CalmRunsStayCalm(s: State, acts: seq<Action>, key: Key)
    requires Inv(s) && Calm(s, key) && CalmFrom(s, acts, key)
    ensures Inv(RunFrom(s, acts)) && Calm(RunFrom(s, acts), key)
  {
    if acts != [] {
      var n := |acts| - 1;
      CalmRunsStayCalm(s, acts[..n], key);
      NextKeeps(RunFrom(s, acts[..n]), acts[n]);
      NextStaysCalm(RunFrom(s, acts[..n]), acts[n], key);
    }
  }

  /** What has been rejected does not arrive. */
  lemma RejectedNeverArrives(s: State, key: Key)
    requires Inv(s) && AllRejected(s.log, key)
    ensures NothingArrived(s.log, key)
  {
    forall n ensures Delivered(key, n) !in s.log {
      assert Delivered(key, n) in s.log ==> EventOk(s.log, s.rows, Delivered(key, n));
    }
  }

  lemma CalmIsTruthful(s: State, key: Key)
    requires Inv(s) && Calm(s, key)
    ensures Truthful(s, key)
  {
    if AllRejected(s.log, key) {
      RejectedNeverArrives(s, key);
    }
  }

  /**
   * Where a key is retried calmly, a definite failure recorded for it stands for mail that has not arrived in any
   * attempt, and whatever happens on other keys does not matter.
   */
  lemma CalmRunsAreTruthful(acts: seq<Action>, key: Key)
    requires CalmFrom(INITIAL, acts, key)
    ensures Truthful(Run(acts), key)
  {
    CalmRunsStayCalm(INITIAL, acts, key);
    CalmIsTruthful(Run(acts), key);
  }
}
