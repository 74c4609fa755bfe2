/**
 * Where calm runs come from: requests that finish before their claim is stale, accounts not disabled in the middle
 * of a send, and senders who look before they retry. And two runs that show what happens otherwise.
 */
module ProtocolPrompt {
  import opened Basics
  import opened Text
  import opened DeliveryStore
  import opened Senders
  import opened Protocol
  import opened ProtocolSafety
  import opened ProtocolTruth
  import opened ProtocolRetry
  import opened ProtocolRuns

  /**
   * No claim on the key outlives `STALE` seconds, its sender's account is not disabled under a request that holds a
   * claim on it, and it is retried only when every call was definitely rejected.
   */
  ghost predicate PromptAt(s: State, a: Action, key: Key) {
    match a
    case Tick(seconds) =>
      forall id :: id in s.handlers && s.handlers[id].key == key && Armed(s.handlers[id]) ==>
        s.now + seconds < s.handlers[id].claimTime + STALE
    case Disable(d) =>
      d in s.disablings && s.disablings[d].user == key.actor ==>
        forall id :: id in s.handlers && Armed(s.handlers[id]) ==> s.handlers[id].key != key
    case Step(_, _) => IsRetry(s, a, key) ==> AllRejected(s.log, key)
    case _ => true
  }

  ghost predicate PromptFrom(s: State, acts: seq<Action>, key: Key) {
    acts != [] ==>
      var n := |acts| - 1;
      PromptFrom(s, acts[..n], key) && PromptAt(RunFrom(s, acts[..n]), acts[n], key)
  }

  /** A request that holds a claim holds the row: it is still sending for it, or it has just been accepted. */
  predicate Holds(s: State, h: Handler) {
    Armed(h) ==>
      && s.now < h.claimTime + STALE
      && h.epoch == Epoch(s.log, h.key)
      && h.key in s.rows
      && (|| (s.rows[h.key].status.Sending? && s.rows[h.key].claimedAt == Some(h.claimTime))
          || (s.rows[h.key].status.Accepted? && h.pc == Failing(true)))
  }

  ghost predicate AllHold(s: State, key: Key) {
    forall id :: id in s.handlers && s.handlers[id].key == key ==> Holds(s, s.handlers[id])
  }

  /** A step against a row that somebody else holds. */
  lemma StepRespectsHolder(h: Handler, at: Scene, input: Input, holder: Handler)
    requires Armed(holder) && !Armed(h) && at.now < holder.claimTime + STALE && at.row.Some?
    requires var row := at.row.value;
             (row.status.Sending? && row.claimedAt == Some(holder.claimTime)) || row.status.Accepted?
    ensures var m := Advance(h, at, input);
            m.row == at.row && m.event.None? && !Armed(m.handler)
  {
  }

  lemma StepOfHolder(s: State, h: Handler, input: Input)
    requires Holds(s, h) && Armed(h)
    ensures var m := Advance(h, SceneOf(s, h), input);
            && m.row.Some? && !(m.event.Some? && m.event.value.Retried?)
            && m.handler.epoch == h.epoch && m.handler.claimTime == h.claimTime
            && (Armed(m.handler) ==>
                  || (m.row.value.status.Sending? && m.row.value.claimedAt == Some(h.claimTime))
                  || (m.row.value.status.Accepted? && m.handler.pc == Failing(true)))
  {
  }

  lemma StepOfClaimant(h: Handler, at: Scene, input: Input)
    requires !Armed(h)
    ensures var m := Advance(h, at, input);
            Armed(m.handler) ==>
              && m.handler.epoch == at.epoch && m.handler.claimTime == at.now
              && m.event.Some? && m.event.value.ClaimTaken?
              && m.row.Some? && m.row.value.status.Sending? && m.row.value.claimedAt == Some(at.now)
  {
  }

  lemma StepKeepsOwnHold(s: State, id: nat, input: Input)
    requires id in s.handlers && Holds(s, s.handlers[id])
    ensures var s' := Next(s, Step(id, input)); Holds(s', s'.handlers[id])
  {
    var h := s.handlers[id];
    MoveIsLocal(h, SceneOf(s, h), input);
    LoggedFacts(s.log, Advance(h, SceneOf(s, h), input).event);
    if Armed(h) {
      StepOfHolder(s, h, input);
    } else {
      StepOfClaimant(h, SceneOf(s, h), input);
    }
  }

  lemma StepKeepsOtherHold(s: State, id: nat, input: Input, i: nat)
    requires id in s.handlers && i in s.handlers && i != id && Distinct(s.handlers)
    requires Holds(s, s.handlers[i]) && (s.handlers[id].key == s.handlers[i].key ==> Holds(s, s.handlers[id]))
    ensures var s' := Next(s, Step(id, input)); Holds(s', s'.handlers[i])
  {
    var h, other := s.handlers[id], s.handlers[i];
    MoveIsLocal(h, SceneOf(s, h), input);
    LoggedFacts(s.log, Advance(h, SceneOf(s, h), input).event);
    if Armed(other) && other.key == h.key {
      StepRespectsHolder(h, SceneOf(s, h), input, other);
    }
  }

  lemma CrashKeepsHold(s: State, id: nat, delivered: bool, i: nat)
    requires i in s.handlers && Holds(s, s.handlers[i])
    ensures var s' := Next(s, Crash(id, delivered)); i in s'.handlers && Holds(s', s'.handlers[i])
  {
    if id in s.handlers {
      LoggedFacts(s.log, CrashEvent(s.handlers[id], delivered));
    }
  }

  lemma OutsideKeepsHold(s: State, a: Action, i: nat)
    requires a.Arrive? || a.RecoverPass? || a.StartDisable? || a.Disable? || a.Appoint? || a.Tick?
    requires i in s.handlers && Holds(s, s.handlers[i]) && PromptAt(s, a, s.handlers[i].key)
    ensures Holds(Next(s, a), s.handlers[i])
  {
  }

  lemma NextKeepsHold(s: State, a: Action, i: nat)
    requires i in Next(s, a).handlers && Distinct(s.handlers)
    requires var key := Next(s, a).handlers[i].key; AllHold(s, key) && PromptAt(s, a, key)
    ensures Holds(Next(s, a), Next(s, a).handlers[i])
  {
    match a {
      case Begin(_, _) =>
      case Step(id, input) =>
        if id in s.handlers {
          MoveIsLocal(s.handlers[id], SceneOf(s, s.handlers[id]), input);
          if i == id {
            StepKeepsOwnHold(s, id, input);
          } else {
            StepKeepsOtherHold(s, id, input, i);
          }
        }
      case Crash(id, delivered) => CrashKeepsHold(s, id, delivered, i);
      case _ => OutsideKeepsHold(s, a, i);
    }
  }

  /** Where every claim is held, a retry finds an uncertain row, and so no request that may still reject. */
  lemma PromptRetryIsCalm(s: State, a: Action, key: Key)
    requires AllHold(s, key) && PromptAt(s, a, key) && IsRetry(s, a, key)
    ensures CalmAt(s, a, key)
  {
    RetryMoves(s, a, key);
    forall id | id in s.handlers && MayReject(s.handlers[id]) ensures s.handlers[id].key != key {
      assert s.handlers[id].key == key ==> Holds(s, s.handlers[id]);
    }
  }

  /** Prompt requests are never overtaken, so by CalmRunsAreTruthful their failures can be believed. */
  lemma {:induction false} PromptRunsAreCalm(acts: seq<Action>, key: Key)
    requires PromptFrom(INITIAL, acts, key)
    ensures CalmFrom(INITIAL, acts, key) && AllHold(Run(acts), key)
  {
    if acts != [] {
      var n := |acts| - 1;
      var s, a := Run(acts[..n]), acts[n];
      PromptRunsAreCalm(acts[..n], key);
      RunKeeps(acts[..n]);
      forall i | i in Next(s, a).handlers && Next(s, a).handlers[i].key == key
        ensures Holds(Next(s, a), Next(s, a).handlers[i])
      {
        NextKeepsHold(s, a, i);
      }
      if IsRetry(s, a, key) {
        PromptRetryIsCalm(s, a, key);
      }
    }
  }

  // ---- Two runs that end in a false record ----

  const USER := KeyFor(RecordEmail)

  function Request(pc: Pc): Handler {
    RequestFor(RecordEmail, pc)
  }

  const HELD := HeldFor(RecordEmail)
  const CLAIM := Claimed(RecordEmail, false, Normalized(RecordEmail, MAIL))

  ghost predicate Uncalled(log: seq<Event>) {
    forall n, m :: Called(USER, n, m) !in log
  }

  /** The row is being sent by the one request there is, and nothing has arrived. */
  ghost predicate Sends(s: State, pc: Pc, from: string) {
    && s.rows == map[USER := HELD] && s.handlers == map[0 := Request(pc).(from := from, claim := CLAIM)]
    && s.standings == MEMBERS && s.now == 0
    && NothingArrived(s.log, USER) && DeclaredNotSent(USER) !in s.log
    && (forall n :: Rejected(USER, n) !in s.log)
  }

  /** The request claims the row. */
  lemma RequestClaims(s: State)
    requires s == State(map[USER := RowFor(RecordEmail)], map[0 := Request(Claiming)], MEMBERS, map[],
                        [Inserted(USER, Normalized(RecordEmail, MAIL))], 0)
    ensures !IsRetry(s, Step(0, CLEAN), USER) && Uncalled(Next(s, Step(0, CLEAN)).log)
    ensures Sends(Next(s, Step(0, CLEAN)), Checking([LoadAccount, MatchSender]), "")
  {
    assert Checks(RecordEmail, false) == [LoadAccount, MatchSender] + [] == [LoadAccount, MatchSender];
    assert Next(s, Step(0, CLEAN)).rows == map[USER := HELD];
  }

  /** An uncertain row of user 7, and a request of that user to send it again. */
  ghost predicate AsksAgain(s: State, id: nat) {
    && USER in s.rows && s.rows[USER].status.Uncertain? && s.rows[USER].actor == 7 && s.rows[USER].kind.RecordEmail?
    && StandingOf(s, 7) == Member
    && id in s.handlers && s.handlers[id] == Request(Resolving(Retry))
  }

  lemma AskingAgainIsRetry(s: State, id: nat)
    requires AsksAgain(s, id)
    ensures IsRetry(s, Step(id, CLEAN), USER)
  {
  }

  lemma SlowIsAskedAgain(s: State)
    requires s.rows == map[USER := HELD.(status := Uncertain)] && s.standings == MEMBERS
    requires s.handlers.Keys == {0} && s.handlers[0].key == USER && MayReject(s.handlers[0])
    ensures var s' := Next(s, Begin(1, Request(Resolving(Retry))));
            AsksAgain(s', 1) && s'.log == s.log && !NobodyRejects(s'.handlers, USER)
  {
    assert Next(s, Begin(1, Request(Resolving(Retry)))).handlers[0] == s.handlers[0];
  }

  /** The slow request: nothing has been called yet, but it may still report a failure. */
  lemma SlowRun() returns (slow: seq<Action>)
    ensures CalmFrom(INITIAL, slow, USER) && AsksAgain(Run(slow), 1)
    ensures AllRejected(Run(slow).log, USER) && !NobodyRejects(Run(slow).handlers, USER)
  {
    slow := PreparedRun(RecordEmail);
    RequestClaims(Run(slow));
    slow := Extend(slow, Step(0, CLEAN), USER);
    ClaimGoesStale(Run(slow), RecordEmail);
    slow := Extend(slow, Tick(STALE), USER);
    slow := Extend(slow, RecoverPass({USER}), USER);
    SlowIsAskedAgain(Run(slow));
    slow := Extend(slow, Begin(1, Request(Resolving(Retry))), USER);
  }

  // ---- The call that times out ----

  const SENDER := Normalized(RecordEmail, MAIL).sender
  const TIMEOUT := CLEAN.(outcome := SendAmbiguous)

  lemma RequestIsChecked(s: State)
    requires Sends(s, Checking([LoadAccount, MatchSender]), "")
    ensures var a := Step(0, CLEAN.(account := Some(SENDER)));
            !IsRetry(s, a, USER) && Sends(Next(s, a), Checking([MatchSender]), SENDER)
  {
    assert [LoadAccount, MatchSender][1..] == [MatchSender];
  }

  lemma SenderIsMatched(s: State)
    requires Sends(s, Checking([MatchSender]), SENDER)
    ensures !IsRetry(s, Step(0, CLEAN), USER) && Sends(Next(s, Step(0, CLEAN)), Checking([]), SENDER)
  {
    TrimLowerTrim(MAIL.sender);
    assert [MatchSender][1..] == [];
  }

  lemma RequestCalls(s: State)
    requires Sends(s, Checking([]), SENDER)
    ensures var s' := Next(s, Step(0, CLEAN));
            && !IsRetry(s, Step(0, CLEAN), USER) && Sends(s', InFlight, SENDER) && !AllRejected(s'.log, USER)
  {
    var h, m := s.handlers[0], Compose(RecordEmail, Normalized(RecordEmail, MAIL));
    assert Advance(h, SceneOf(s, h), CLEAN) == Move(h.(pc := InFlight), Some(HELD), Some(Called(USER, 0, m)));
    assert Called(USER, 0, m) in Next(s, Step(0, CLEAN)).log;
  }

  lemma CallTimesOut(s: State)
    requires Sends(s, InFlight, SENDER)
    ensures var s' := Next(s, Step(0, TIMEOUT));
            !IsRetry(s, Step(0, TIMEOUT), USER) && Sends(s', Failing(true), SENDER) && s'.log == s.log
  {
  }

  lemma TimeoutIsRecorded(s: State)
    requires Sends(s, Failing(true), SENDER)
    ensures var s' := Next(s, Step(0, CLEAN));
            && !IsRetry(s, Step(0, CLEAN), USER)
            && s'.rows == map[USER := HELD.(status := Uncertain)] && s'.standings == MEMBERS && s'.log == s.log
            && s'.handlers == map[0 := Request(Finished).(from := SENDER, claim := CLAIM)]
  {
    var h := s.handlers[0];
    assert Advance(h, SceneOf(s, h), CLEAN)
        == Move(h.(pc := Finished), Some(HELD.(status := Uncertain)), None);
  }

  lemma TimeoutIsAskedAgain(s: State)
    requires s.rows == map[USER := HELD.(status := Uncertain)] && s.standings == MEMBERS
    requires s.handlers == map[0 := Request(Finished).(from := SENDER, claim := CLAIM)]
    ensures var s' := Next(s, Begin(1, Request(Resolving(Retry))));
            AsksAgain(s', 1) && s'.log == s.log && NobodyRejects(s'.handlers, USER)
  {
  }

  /** The call timed out: every request is over, nothing has arrived yet, and the row is uncertain. */
  lemma TimedOutRun() returns (acts: seq<Action>)
    ensures CalmFrom(INITIAL, acts, USER) && AsksAgain(Run(acts), 1)
    ensures NothingArrived(Run(acts).log, USER) && !AllRejected(Run(acts).log, USER)
    ensures NobodyRejects(Run(acts).handlers, USER)
  {
    acts := PreparedRun(RecordEmail);
    RequestClaims(Run(acts));
    acts := Extend(acts, Step(0, CLEAN), USER);
    RequestIsChecked(Run(acts));
    acts := Extend(acts, Step(0, CLEAN.(account := Some(SENDER))), USER);
    SenderIsMatched(Run(acts));
    acts := Extend(acts, Step(0, CLEAN), USER);
    RequestCalls(Run(acts));
    acts := Extend(acts, Step(0, CLEAN), USER);
    CallTimesOut(Run(acts));
    acts := Extend(acts, Step(0, TIMEOUT), USER);
    TimeoutIsRecorded(Run(acts));
    acts := Extend(acts, Step(0, CLEAN), USER);
    TimeoutIsAskedAgain(Run(acts));
    acts := Extend(acts, Begin(1, Request(Resolving(Retry))), USER);
  }

  /**
   * So the code by itself does not promise that `Failed` means "not sent". A retry that overtakes a slow request
   * breaks it though nothing had been sent. And a retry after a call that timed out breaks it though it overtakes
   * nobody and nothing has arrived: the first mail may arrive after the second attempt has failed.
   */
  lemma FailedCanLie()
    returns (slow: seq<Action>, afterSlow: seq<Action>, timedOut: seq<Action>, afterTimeout: seq<Action>)
    ensures CalmFrom(INITIAL, slow, USER) && AsksAgain(Run(slow), 1) && AllRejected(Run(slow).log, USER)
    ensures var s := Next(Run(slow), Step(1, CLEAN));
            CalmFrom(s, afterSlow, USER) && !Truthful(RunFrom(s, afterSlow), USER)
    ensures CalmFrom(INITIAL, timedOut, USER) && AsksAgain(Run(timedOut), 1)
    ensures NothingArrived(Run(timedOut).log, USER) && NobodyRejects(Run(timedOut).handlers, USER)
    ensures var s := Next(Run(timedOut), Step(1, CLEAN));
            CalmFrom(s, afterTimeout, USER) && !Truthful(RunFrom(s, afterTimeout), USER)
  {
    slow := SlowRun();
    RunKeeps(slow);
    AskingAgainIsRetry(Run(slow), 1);
    afterSlow := UnsafeRetryCanLie(Run(slow), Step(1, CLEAN), USER);
    timedOut := TimedOutRun();
    RunKeeps(timedOut);
    AskingAgainIsRetry(Run(timedOut), 1);
    afterTimeout := UnsafeRetryCanLie(Run(timedOut), Step(1, CLEAN), USER);
  }
}
