/** A request of the concurrent system, stepped to its end, does what the sender methods do. */
module ProtocolRefinement {
  import opened Basics
  import opened DeliveryStore
  import opened Senders
  import opened Protocol
  import opened ProtocolSafety

  function SceneIn(row: Row, env: Env, epoch: nat): Scene {
    Scene(Some(row), epoch, env.standing, env.now)
  }

  function Answers(h: Handler, env: Env, report: Fault): Input {
    Input(if h.pc.Claiming? then env.claimFault else report, false, env.verdict, env.account,
          env.suppressed, env.outcome, true)
  }

  function Rank(pc: Pc): nat {
    match pc
    case Claiming => 8
    case Checking(todo) => 4 + |todo|
    case InFlight => 3
    case Completing => 2
    case Failing(_) => 1
    case _ => 0
  }

  /** What others write to the row right after this step. */
  function Interference(h: Handler, next: Handler, env: Env): seq<Change> {
    if next.pc.Finished? then []
    else if h.pc.Claiming? then env.meanwhile
    else if h.pc.Completing? then env.afterwards
    else []
  }

  lemma AdvanceIsShorter(h: Handler, row: Row, env: Env, report: Fault, n: nat)
    requires h.pc.Claiming? || Armed(h)
    ensures var m := Advance(h, SceneIn(row, env, n), Answers(h, env, report));
            && m.row.Some? && (m.handler.pc.Finished? || Armed(m.handler))
            && Rank(m.handler.pc) < Rank(h.pc)
  {
  }

  /** The request that starts claiming, stepped until it finishes: the row it leaves and its provider calls. */
  function Alone(h: Handler, row: Row, env: Env, report: Fault, n: nat): (Row, seq<Message>)
    requires h.pc.Claiming? || Armed(h) || h.pc.Finished?
    decreases Rank(h.pc)
  {
    if h.pc.Finished? then (row, [])
    else
      var m := Advance(h, SceneIn(row, env, n), Answers(h, env, report));
      AdvanceIsShorter(h, row, env, report, n);
      var row' := ApplyAll(m.row.value, Interference(h, m.handler, env));
      var (last, calls) := Alone(m.handler, row', env, if h.pc.Completing? then env.fallbackFault else report, n);
      (last, if m.event.Some? && m.event.value.Called? then [m.event.value.message] + calls else calls)
  }

  /** Whether every question still to be asked will be answered in the request's favour. */
  predicate Passes(todo: seq<Check>, from: string, sender: string, env: Env) {
    if todo == [] then true
    else match todo[0]
      case LoadAccount => env.account.Some? && Passes(todo[1..], env.account.value, sender, env)
      case MatchSender => SameMailbox(from, sender) && Passes(todo[1..], from, sender, env)
      case CheckSuppression => env.suppressed == Some(false) && Passes(todo[1..], from, sender, env)
  }

  /** The three orders of the questions come to the same rule. */
  lemma OrderDoesNotMatter(kind: Kind, suppress: bool, from: string, envelope: Envelope, env: Env)
    ensures Passes(Checks(kind, suppress), from, envelope.sender, env) <==> MayCall(envelope, suppress, env)
  {
    var sender := envelope.sender;
    assert [MatchSender][1..] == [] && [CheckSuppression][1..] == [];
    assert [LoadAccount, MatchSender][1..] == [MatchSender];
    assert forall f :: Passes([MatchSender], f, sender, env) <==> SameMailbox(f, sender);
    if suppress {
      assert [MatchSender, CheckSuppression][1..] == [CheckSuppression];
      assert [CheckSuppression, MatchSender][1..] == [MatchSender];
      assert forall f :: Passes([CheckSuppression], f, sender, env) <==> env.suppressed == Some(false);
      assert forall f :: Passes([MatchSender, CheckSuppression], f, sender, env)
                     <==> SameMailbox(f, sender) && env.suppressed == Some(false);
      assert forall f :: Passes([CheckSuppression, MatchSender], f, sender, env)
                     <==> SameMailbox(f, sender) && env.suppressed == Some(false);
      assert forall f :: Passes([LoadAccount, MatchSender], f, sender, env)
                     <==> env.account.Some? && SameMailbox(env.account.value, sender);
      assert Checks(RecordEmail, true)[1..] == [MatchSender, CheckSuppression];
      assert Checks(DealQuote, true)[1..] == [LoadAccount, MatchSender];
      assert Checks(ThreadReply, true)[1..] == [CheckSuppression, MatchSender];
    } else {
      assert Checks(kind, suppress) == [LoadAccount, MatchSender];
    }
  }

  lemma NoInterference(row: Row)
    ensures ApplyAll(row, []) == row
  {
  }

  lemma AloneFails(h: Handler, row: Row, env: Env, report: Fault, n: nat)
    requires h.pc.Failing?
    ensures Alone(h, row, env, report, n) == (Faulted(report, row, FailSpec(row, h.pc.uncertain)).0, [])
  {
  }

  lemma AloneReports(h: Handler, row: Row, env: Env, n: nat)
    requires h.pc.InFlight?
    ensures Alone(h, row, env, env.reportFault, n) == (Reported(row, env), [])
  {
    NoInterference(row);
    match env.outcome {
      case SendRejected => AloneFails(h.(pc := Failing(false)), row, env, env.reportFault, n);
      case SendAmbiguous => AloneFails(h.(pc := Failing(true)), row, env, env.reportFault, n);
      case SendAccepted =>
        var (done, answer) := Faulted(env.reportFault, row, CompleteSpec(row));
        NoInterference(done);
        var h' := h.(pc := Completing);
        var m := CompleteStep(h', row, Answers(h', env, env.reportFault));
        assert m.row == Some(done);
        if answer.Refused? {
          AloneFails(m.handler, ApplyAll(done, env.afterwards), env, env.fallbackFault, n);
        }
        assert Alone(h', row, env, env.reportFault, n) == (Reported(row, env), []);
    }
  }

  lemma AloneCalls(h: Handler, row: Row, env: Env, n: nat)
    requires h.pc == Checking([])
    ensures Alone(h, row, env, env.reportFault, n) == (Reported(row, env), [Compose(h.claim.kind, h.claim.envelope)])
  {
    var m := CheckStep(h, Some(row), Answers(h, env, env.reportFault));
    NoInterference(row);
    AloneReports(m.handler, row, env, n);
    assert [m.event.value.message] + [] == [m.event.value.message];
  }

  /** One question: the request goes on to the next or reports a failure. */
  lemma AloneAsks(h: Handler, row: Row, env: Env, n: nat) returns (next: Handler)
    requires h.pc.Checking? && h.pc.todo != []
    ensures next == CheckStep(h, Some(row), Answers(h, env, env.reportFault)).handler && next.claim == h.claim
    ensures next.pc.Checking? ==>
              && next.pc.todo == h.pc.todo[1..]
              && Alone(h, row, env, env.reportFault, n) == Alone(next, row, env, env.reportFault, n)
    ensures !next.pc.Checking? ==>
              Alone(h, row, env, env.reportFault, n) == (Faulted(env.reportFault, row, FailSpec(row, false)).0, [])
    ensures Passes(h.pc.todo, h.from, h.claim.envelope.sender, env)
       <==> next.pc.Checking? && Passes(next.pc.todo, next.from, h.claim.envelope.sender, env)
  {
    next := CheckStep(h, Some(row), Answers(h, env, env.reportFault)).handler;
    NoInterference(row);
    if !next.pc.Checking? {
      AloneFails(next, row, env, env.reportFault, n);
    }
  }

  lemma {:induction false} AloneChecks(h: Handler, row: Row, env: Env, n: nat)
    requires h.pc.Checking?
    ensures Alone(h, row, env, env.reportFault, n) ==
            if Passes(h.pc.todo, h.from, h.claim.envelope.sender, env)
            then (Reported(row, env), [Compose(h.claim.kind, h.claim.envelope)])
            else (Faulted(env.reportFault, row, FailSpec(row, false)).0, [])
    decreases |h.pc.todo|
  {
    if h.pc.todo == [] {
      AloneCalls(h, row, env, n);
    } else {
      var next := AloneAsks(h, row, env, n);
      if next.pc.Checking? {
        AloneChecks(next, row, env, n);
      }
    }
  }

  function ClaimUnder(row: Row, actor: nat, env: Env): (Row, Answer) {
    Faulted(env.claimFault, row, ClaimSpec(row, actor, env.standing, env.verdict, env.now))
  }

  predicate HandsOut(answer: Answer) {
    answer.Got? && answer.shouldSend
  }

  lemma AloneClaims(h: Handler, row: Row, env: Env, n: nat) returns (next: Handler, row': Row)
    requires h.pc.Claiming?
    ensures var (claimed, answer) := ClaimUnder(row, h.actor, env);
            && row' == claimed
            && if HandsOut(answer)
               then
                 && next == h.(pc := Checking(Checks(row.kind, Suppresses(h, row))), epoch := n, claimTime := env.now,
                               claim := Claimed(row.kind, Suppresses(h, row), row.envelope))
                 && answer.row.envelope == row.envelope
                 && Alone(h, row, env, env.reportFault, n)
                    == Alone(next, ApplyAll(row', env.meanwhile), env, env.reportFault, n)
               else Alone(h, row, env, env.reportFault, n) == (row', [])
  {
    var m := ClaimStep(h, row, n, env.standing, env.now, Answers(h, env, env.reportFault));
    assert m == Advance(h, SceneIn(row, env, n), Answers(h, env, env.reportFault));
    next, row' := m.handler, m.row.value;
    NoInterference(row');
  }

  /**
   * For every kind of delivery, every answer of the outside world and every interference, stepping a
   * claiming request to its end is the abstract delivery that the three sender methods implement.
   */
  lemma RequestsRefineDelivery(h: Handler, row: Row, env: Env, n: nat)
    requires h.pc.Claiming?
    ensures Alone(h, row, env, env.reportFault, n) == Deliver(row, h.actor, Suppresses(h, row), env)
  {
    var next, row' := AloneClaims(h, row, env, n);
    if next.pc.Checking? {
      OrderDoesNotMatter(row.kind, Suppresses(h, row), next.from, row.envelope, env);
      AloneChecks(next, ApplyAll(row', env.meanwhile), env, n);
    }
  }

  // ---- The three kinds side by side ----

  /** Two rows that differ in their store only, as far as sending goes. */
  predicate Alike(row: Row, other: Row) {
    && row.actor == other.actor && row.status == other.status
    && (row.status.Sending? ==> row.claimedAt == other.claimedAt)
    && (!Final(row.status) ==> row.envelope == other.envelope)
  }

  /** Claims with this standing and verdict mean the same to both stores. */
  predicate ClaimsAlike(kind: Kind, other: Kind, standing: Standing, verdict: Verdict) {
    || kind == other
    || (Writes(standing) &&
        match verdict
        case Valid => true
        case Changed => !kind.ThreadReply? && !other.ThreadReply?
        case Held => !kind.DealQuote? && !other.DealQuote?)
  }

  /** A change both stores answer alike; of resolutions, only quotes take those of members who may not write. */
  predicate AnsweredAlike(kind: Kind, other: Kind, c: Change) {
    match c
    case Claim(_, standing, verdict, _) => ClaimsAlike(kind, other, standing, verdict)
    case Resolve(_, standing, _) => Writes(standing) || standing.Inactive? || kind.DealQuote? == other.DealQuote?
    case _ => true
  }

  ghost predicate AllAnsweredAlike(kind: Kind, other: Kind, changes: seq<Change>) {
    forall i :: 0 <= i < |changes| ==> AnsweredAlike(kind, other, changes[i])
  }

  lemma ChangeStaysAlike(row: Row, other: Row, c: Change)
    requires Alike(row, other) && AnsweredAlike(row.kind, other.kind, c)
    ensures Alike(Apply(row, c), Apply(other, c))
    ensures Apply(row, c).kind == row.kind && Apply(other, c).kind == other.kind
  {
  }

  lemma {:induction false} ChangesStayAlike(row: Row, other: Row, changes: seq<Change>)
    requires Alike(row, other) && AllAnsweredAlike(row.kind, other.kind, changes)
    ensures Alike(ApplyAll(row, changes), ApplyAll(other, changes))
    ensures ApplyAll(row, changes).kind == row.kind && ApplyAll(other, changes).kind == other.kind
  {
    if changes != [] {
      var n := |changes| - 1;
      ChangesStayAlike(row, other, changes[..n]);
      ChangeStaysAlike(ApplyAll(row, changes[..n]), ApplyAll(other, changes[..n]), changes[n]);
    }
  }

  lemma ReportsAlike(row: Row, other: Row, env: Env)
    requires Alike(row, other) && AllAnsweredAlike(row.kind, other.kind, env.afterwards)
    ensures Alike(Reported(row, env), Reported(other, env))
  {
    var done, done' := Faulted(env.reportFault, row, CompleteSpec(row)).0,
                       Faulted(env.reportFault, other, CompleteSpec(other)).0;
    ChangesStayAlike(done, done', env.afterwards);
  }

  /** Both attempts call the provider equally often and leave the same status. */
  predicate Agree(row: Row, other: Row, actor: nat, suppressions: bool, env: Env) {
    var (a, calls) := Deliver(row, actor, suppressions, env);
    var (b, calls') := Deliver(other, actor, suppressions, env);
    a.status == b.status && |calls| == |calls'|
  }

  /** Two attempts under the same circumstances, with nothing in between that the two stores see differently. */
  ghost predicate Comparable(row: Row, other: Row, env: Env) {
    && Alike(row, other)
    && AllAnsweredAlike(row.kind, other.kind, env.meanwhile)
    && AllAnsweredAlike(row.kind, other.kind, env.afterwards)
  }

  lemma ClaimedAlike(row: Row, other: Row, actor: nat, env: Env)
    requires Alike(row, other) && ClaimsAlike(row.kind, other.kind, env.standing, env.verdict)
    ensures var (r, a), (r', a') := ClaimUnder(row, actor, env), ClaimUnder(other, actor, env);
            && Alike(r, r') && r.kind == row.kind && r'.kind == other.kind
            && (HandsOut(a) <==> HandsOut(a')) && (HandsOut(a) ==> a.row.envelope == a'.row.envelope)
  {
  }

  lemma SendersAgree(row: Row, other: Row, actor: nat, suppressions: bool, env: Env)
    requires Comparable(row, other, env) && ClaimsAlike(row.kind, other.kind, env.standing, env.verdict)
    ensures Agree(row, other, actor, suppressions, env)
  {
    ClaimedAlike(row, other, actor, env);
    var claimed, claimed' := ClaimUnder(row, actor, env).0, ClaimUnder(other, actor, env).0;
    ChangesStayAlike(claimed, claimed', env.meanwhile);
    ReportsAlike(ApplyAll(claimed, env.meanwhile), ApplyAll(claimed', env.meanwhile), env);
  }

  /** A delivery that a sender with no questions against it would take and have accepted. */
  function Sample(kind: Kind, status: Status): Row {
    Row(kind, status, Customer, 0, 0, Envelope("", "", "", "", "", "", "", "", []), Some(0))
  }

  function SampleEnv(standing: Standing, verdict: Verdict): Env {
    Env(STALE + 1, standing, verdict, Clean, Some(""), None, SendAccepted, [], Clean, [], Clean)
  }

  /** Where two stores differ, a fresh row or an interrupted one shows it. */
  lemma SendersDiffer(kind: Kind, other: Kind, standing: Standing, verdict: Verdict)
    requires !ClaimsAlike(kind, other, standing, verdict)
    ensures var env := SampleEnv(standing, verdict);
            || !Agree(Sample(kind, Prepared), Sample(other, Prepared), 0, false, env)
            || !Agree(Sample(kind, Sending), Sample(other, Sending), 0, false, env)
  {
    assert SameMailbox("", "");
  }

  /**
   * Two senders agree on every delivery, whatever is answered, if and only if their claims mean the same: the
   * stores are one store, or a writer claims and neither store has anything of its own to say.
   */
  lemma SendersAgreeExactly(kind: Kind, other: Kind, standing: Standing, verdict: Verdict)
    ensures ClaimsAlike(kind, other, standing, verdict)
       <==> forall row: Row, row': Row, actor: nat, suppressions: bool, env: Env ::
              (row.kind == kind && row'.kind == other && Comparable(row, row', env)
               && env.standing == standing && env.verdict == verdict)
              ==> Agree(row, row', actor, suppressions, env)
  {
    if ClaimsAlike(kind, other, standing, verdict) {
      forall row: Row, row': Row, actor: nat, suppressions: bool, env: Env |
        row.kind == kind && row'.kind == other && Comparable(row, row', env)
        && env.standing == standing && env.verdict == verdict
        ensures Agree(row, row', actor, suppressions, env)
      {
        SendersAgree(row, row', actor, suppressions, env);
      }
    } else {
      SendersDiffer(kind, other, standing, verdict);
      var env := SampleEnv(standing, verdict);
      assert Comparable(Sample(kind, Prepared), Sample(other, Prepared), env);
      assert Comparable(Sample(kind, Sending), Sample(other, Sending), env);
    }
  }
}
