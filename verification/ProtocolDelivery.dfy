/** What becomes of a request, from what its user wrote to what the provider is given. */
module ProtocolDelivery {
  import opened Basics
  import opened Text
  import opened DeliveryStore
  import opened Senders
  import opened Protocol
  import opened ProtocolSafety
  import opened ProtocolTruth
  import opened ProtocolRetry
  import opened ProtocolRefinement

  // ---- A request left to itself ----

  /** The messages handed to the provider under a key, in order. */
  function MessagesOf(log: seq<Event>, key: Key): seq<Message> {
    if log == [] then []
    else
      var e := log[|log| - 1];
      MessagesOf(log[..|log| - 1], key) + if e.Called? && e.key == key then [e.message] else []
  }

  lemma MessagesOfLogged(log: seq<Event>, event: Option<Event>, key: Key)
    ensures MessagesOf(Logged(log, event), key) == MessagesOf(log, key)
              + if event.Some? && event.value.Called? && event.value.key == key then [event.value.message] else []
  {
  }

  lemma NoRetryHere(h: Handler, at: Scene, input: Input)
    requires h.pc.Claiming? || Armed(h)
    ensures var m := Advance(h, at, input); m.event.Some? ==> !m.event.value.Retried? && m.event.value.key == h.key
    ensures Advance(h, at, input).handler.key == h.key && Advance(h, at, input).handler.actor == h.actor
  {
    MoveIsLocal(h, at, input);
  }

  /** One step of the machine is one step of the request alone. */
  lemma StepAlone(s: State, id: nat, env: Env, report: Fault)
    requires id in s.handlers && s.handlers[id].key in s.rows
    requires s.handlers[id].pc.Claiming? || Armed(s.handlers[id])
    requires StandingOf(s, s.handlers[id].actor) == env.standing && s.now == env.now
    ensures var h := s.handlers[id];
            var n, input := Epoch(s.log, h.key), Answers(h, env, report);
            var m, s' := Advance(h, SceneIn(s.rows[h.key], env, n), input), Next(s, Step(id, input));
            && m.row.Some? && m.handler.key == h.key && m.handler.actor == h.actor
            && s'.rows == s.rows[h.key := m.row.value] && s'.handlers == s.handlers[id := m.handler]
            && s'.standings == s.standings && s'.now == s.now && Epoch(s'.log, h.key) == n
            && MessagesOf(s'.log, h.key) == MessagesOf(s.log, h.key)
                 + (if m.event.Some? && m.event.value.Called? then [m.event.value.message] else [])
  {
    var h := s.handlers[id];
    var n, input := Epoch(s.log, h.key), Answers(h, env, report);
    assert SceneOf(s, h) == SceneIn(s.rows[h.key], env, n);
    AdvanceIsShorter(h, s.rows[h.key], env, report, n);
    NoRetryHere(h, SceneOf(s, h), input);
    LoggedFacts(s.log, Advance(h, SceneOf(s, h), input).event);
    MessagesOfLogged(s.log, Advance(h, SceneOf(s, h), input).event, h.key);
  }

  lemma Overwrite<K, V>(m: map<K, V>, k: K, a: V, b: V)
    ensures m[k := a][k := b] == m[k := b]
  {
  }

  /** The rows, messages and requests after `id` has run to its end. */
  ghost predicate Ended(s: State, s': State, id: nat, key: Key, row: Row, calls: seq<Message>) {
    && s'.rows == s.rows[key := row] && MessagesOf(s'.log, key) == MessagesOf(s.log, key) + calls
    && s'.handlers.Keys == s.handlers.Keys && id in s'.handlers && s'.handlers[id].pc.Finished?
    && (forall i :: i in s.handlers && i != id ==> s'.handlers[i] == s.handlers[i])
  }

  predicate OnlySteps(acts: seq<Action>, id: nat) {
    forall i :: 0 <= i < |acts| ==> acts[i].Step? && acts[i].id == id
  }

  lemma AloneUnfolds(h: Handler, row: Row, env: Env, report: Fault, n: nat)
    requires (h.pc.Claiming? || Armed(h)) && env.meanwhile == [] && env.afterwards == []
    ensures var m := Advance(h, SceneIn(row, env, n), Answers(h, env, report));
            && m.row.Some? && (m.handler.pc.Finished? || Armed(m.handler))
            && Rank(m.handler.pc) < Rank(h.pc)
            && var (last, calls) :=
                 Alone(m.handler, m.row.value, env, if h.pc.Completing? then env.fallbackFault else report, n);
               Alone(h, row, env, report, n)
               == (last, (if m.event.Some? && m.event.value.Called? then [m.event.value.message] else []) + calls)
  {
    AdvanceIsShorter(h, row, env, report, n);
    var m := Advance(h, SceneIn(row, env, n), Answers(h, env, report));
    NoInterference(m.row.value);
    assert forall calls: seq<Message> :: [] + calls == calls;
  }

  lemma EndedLater(s: State, s1: State, s2: State, id: nat, key: Key, row1: Row, h1: Handler, row: Row,
                   first: seq<Message>, calls: seq<Message>)
    requires id in s.handlers && s1.rows == s.rows[key := row1] && s1.handlers == s.handlers[id := h1]
    requires MessagesOf(s1.log, key) == MessagesOf(s.log, key) + first
    requires Ended(s1, s2, id, key, row, calls)
    ensures Ended(s, s2, id, key, row, first + calls)
  {
    Overwrite(s.rows, key, row1, row);
    Assoc(MessagesOf(s.log, key), first, calls);
  }

  predicate Runs(s: State, id: nat, env: Env) {
    && id in s.handlers && s.handlers[id].key in s.rows
    && (s.handlers[id].pc.Claiming? || Armed(s.handlers[id]) || s.handlers[id].pc.Finished?)
    && env.meanwhile == [] && env.afterwards == []
    && StandingOf(s, s.handlers[id].actor) == env.standing && s.now == env.now
  }

  /** The request has run to its end and left the row, and made the calls, that it makes alone. */
  ghost predicate EndsAlone(s: State, s': State, id: nat, env: Env, report: Fault)
    requires Runs(s, id, env)
  {
    var h := s.handlers[id];
    var (row, calls) := Alone(h, s.rows[h.key], env, report, Epoch(s.log, h.key));
    Ended(s, s', id, h.key, row, calls)
  }

  function ReportAfter(h: Handler, env: Env, report: Fault): Fault {
    if h.pc.Completing? then env.fallbackFault else report
  }

  lemma StillRuns(s: State, id: nat, env: Env, report: Fault)
    requires Runs(s, id, env) && !s.handlers[id].pc.Finished?
    ensures var h, s' := s.handlers[id], Next(s, Step(id, Answers(s.handlers[id], env, report)));
            Runs(s', id, env) && s'.handlers[id].key == h.key && Rank(s'.handlers[id].pc) < Rank(h.pc)
  {
    var h := s.handlers[id];
    StepAlone(s, id, env, report);
    AloneUnfolds(h, s.rows[h.key], env, report, Epoch(s.log, h.key));
  }

  lemma EndsLater(s: State, s2: State, id: nat, env: Env, report: Fault)
    requires Runs(s, id, env) && !s.handlers[id].pc.Finished?
    requires var s1 := Next(s, Step(id, Answers(s.handlers[id], env, report)));
             Runs(s1, id, env) && EndsAlone(s1, s2, id, env, ReportAfter(s.handlers[id], env, report))
    ensures EndsAlone(s, s2, id, env, report)
  {
    var h := s.handlers[id];
    var row, n := s.rows[h.key], Epoch(s.log, h.key);
    var s1 := Next(s, Step(id, Answers(h, env, report)));
    StepAlone(s, id, env, report);
    AloneUnfolds(h, row, env, report, n);
    var m := Advance(h, SceneIn(row, env, n), Answers(h, env, report));
    var (last, calls) := Alone(m.handler, m.row.value, env, ReportAfter(h, env, report), n);
    var first := if m.event.Some? && m.event.value.Called? then [m.event.value.message] else [];
    EndedLater(s, s1, s2, id, h.key, m.row.value, m.handler, last, first, calls);
  }

  lemma EndedAlready(s: State, id: nat, env: Env, report: Fault)
    requires Runs(s, id, env) && s.handlers[id].pc.Finished?
    ensures EndsAlone(s, s, id, env, report)
  {
    var key := s.handlers[id].key;
    assert s.rows[key := s.rows[key]] == s.rows;
  }

  lemma TakeStep(s: State, id: nat, env: Env, report: Fault) returns (a: Action, s1: State, report1: Fault)
    requires Runs(s, id, env) && !s.handlers[id].pc.Finished?
    ensures a.Step? && a.id == id && RunFrom(s, [a]) == s1
    ensures Runs(s1, id, env) && Rank(s1.handlers[id].pc) < Rank(s.handlers[id].pc)
    ensures forall s2 :: EndsAlone(s1, s2, id, env, report1) ==> EndsAlone(s, s2, id, env, report)
  {
    a := Step(id, Answers(s.handlers[id], env, report));
    s1, report1 := Next(s, a), ReportAfter(s.handlers[id], env, report);
    StillRuns(s, id, env, report);
    RunOne(s, a, s.handlers[id].key);
    forall s2 | EndsAlone(s1, s2, id, env, report1) ensures EndsAlone(s, s2, id, env, report) {
      EndsLater(s, s2, id, env, report);
    }
  }

  ghost predicate RunsToEnd(s: State, acts: seq<Action>, id: nat, env: Env, report: Fault) {
    Runs(s, id, env) && OnlySteps(acts, id) && EndsAlone(s, RunFrom(s, acts), id, env, report)
  }

  lemma OneMoreStep(s: State, a: Action, s1: State, more: seq<Action>, key: Key, id: nat)
    requires RunFrom(s, [a]) == s1 && a.Step? && a.id == id && OnlySteps(more, id)
    ensures OnlySteps([a] + more, id) && RunFrom(s, [a] + more) == RunFrom(s1, more)
  {
    RunFromAppend(s, [a], more, key);
  }

  lemma RunsOn(s: State, a: Action, s1: State, more: seq<Action>, id: nat, env: Env, report: Fault, report1: Fault)
    requires Runs(s, id, env) && RunFrom(s, [a]) == s1 && a.Step? && a.id == id
    requires RunsToEnd(s1, more, id, env, report1)
    requires forall s2 :: EndsAlone(s1, s2, id, env, report1) ==> EndsAlone(s, s2, id, env, report)
    ensures RunsToEnd(s, [a] + more, id, env, report)
  {
    OneMoreStep(s, a, s1, more, s.handlers[id].key, id);
  }

  /** The steps of a request left to itself, each answered as `env` says. */
  lemma {:induction false} StepsAlone(s: State, id: nat, env: Env, report: Fault) returns (acts: seq<Action>)
    requires Runs(s, id, env)
    ensures RunsToEnd(s, acts, id, env, report)
    decreases Rank(s.handlers[id].pc)
  {
    if s.handlers[id].pc.Finished? {
      acts := [];
      EndedAlready(s, id, env, report);
    } else {
      var a, s1, report1 := TakeStep(s, id, env, report);
      var more := StepsAlone(s1, id, env, report1);
      RunsOn(s, a, s1, more, id, env, report, report1);
      acts := [a] + more;
    }
  }

  // ---- From what a user wrote to what the provider is given ----

  /** The stored delivery against what was written, field by field. */
  predicate Cleaned(kind: Kind, draft: Envelope, e: Envelope) {
    && e.sender == ToLower(TrimSpace(draft.sender))
    && e.recipient == (if kind.DealQuote? then draft.recipient else ToLower(TrimSpace(draft.recipient)))
    && e.subject == (if kind.ThreadReply? then draft.subject else TrimSpace(draft.subject))
    && e.textBody == (if kind.DealQuote? then draft.textBody else TrimSpace(draft.textBody))
    && e.messageId == draft.messageId && e.inReplyTo == draft.inReplyTo && e.references == draft.references
    && (kind.RecordEmail? ==>
          e.htmlBody == TrimSpace(draft.htmlBody) && e.unsubscribeUrl == TrimSpace(draft.unsubscribeUrl))
  }

  lemma FirstSteps(s: State, id: nat, h: Handler)
    requires id !in s.handlers && h.pc.Replaying? && h.actor == h.key.actor && h.key !in s.rows
    ensures Next(Next(s, Begin(id, h)), Step(id, CLEAN)) == s.(handlers := s.handlers[id := h.(pc := Preparing)])
  {
    Overwrite(s.handlers, id, h, h.(pc := Preparing));
  }

  lemma PreparesRow(s: State, id: nat, h: Handler)
    requires id in s.handlers && s.handlers[id] == h && h.pc.Preparing? && h.key !in s.rows
    requires StandingOf(s, h.actor).Member? || StandingOf(s, h.actor).Admin?
    ensures var e := Normalized(h.key.kind, h.draft);
            && Cleaned(h.key.kind, h.draft, e)
            && Next(s, Step(id, CLEAN))
               == s.(rows := s.rows[h.key := Row(h.key.kind, Prepared, h.purpose, h.key.actor, h.request, e, None)],
                     handlers := s.handlers[id := h.(pc := Claiming)], log := s.log + [Inserted(h.key, e)])
  {
  }

  /** A fresh request of a writer prepares its delivery: what was written, cleaned as its store cleans it. */
  lemma FreshRequestPrepares(s: State, id: nat, h: Handler) returns (acts: seq<Action>, e: Envelope)
    requires id !in s.handlers && h.pc.Replaying? && h.actor == h.key.actor && h.key !in s.rows
    requires StandingOf(s, h.actor).Member? || StandingOf(s, h.actor).Admin?
    ensures acts == [Begin(id, h), Step(id, CLEAN), Step(id, CLEAN)] && Cleaned(h.key.kind, h.draft, e)
    ensures RunFrom(s, acts)
         == s.(rows := s.rows[h.key := Row(h.key.kind, Prepared, h.purpose, h.key.actor, h.request, e, None)],
               handlers := s.handlers[id := h.(pc := Claiming)], log := s.log + [Inserted(h.key, e)])
  {
    var b, c := Begin(id, h), Step(id, CLEAN);
    var s1 := Next(s, b);
    var s2 := Next(s1, c);
    e := Normalized(h.key.kind, h.draft);
    FirstSteps(s, id, h);
    PreparesRow(s2, id, h.(pc := Preparing));
    Overwrite(s.handlers, id, h.(pc := Preparing), h.(pc := Claiming));
    acts := [b, c, c];
    assert acts[..2] == [b, c] && [b, c][..1] == [b] && [b][..0] == [];
    assert RunFrom(s, [b]) == s1 && RunFrom(s, [b, c]) == s2;
  }

  /** The whole machine, run for one request alone, does what one abstract attempt does. */
  lemma RequestDelivers(s: State, id: nat, env: Env) returns (acts: seq<Action>)
    requires Runs(s, id, env) && s.handlers[id].pc.Claiming?
    ensures OnlySteps(acts, id)
    ensures var h := s.handlers[id];
            var (row, calls) := Deliver(s.rows[h.key], h.actor, Suppresses(h, s.rows[h.key]), env);
            Ended(s, RunFrom(s, acts), id, h.key, row, calls)
  {
    var h := s.handlers[id];
    acts := StepsAlone(s, id, env, env.reportFault);
    RequestsRefineDelivery(h, s.rows[h.key], env, Epoch(s.log, h.key));
  }

  /** The sender still has the mailbox, and the recipient still wants mail where that is asked. */
  predicate Favourable(h: Handler, env: Env) {
    && env.account.Some? && ToLower(TrimSpace(env.account.value)) == ToLower(TrimSpace(h.draft.sender))
    && (h.suppressions && (h.key.kind.RecordEmail? ==> h.purpose.Customer?) ==> env.suppressed == Some(false))
  }

  /** Nothing fails, nothing is in the way, and nobody comes in between. */
  predicate Undisturbed(s: State, h: Handler, env: Env) {
    && env.standing == StandingOf(s, h.actor) && env.now == s.now
    && env.claimFault.Clean? && env.reportFault.Clean? && env.fallbackFault.Clean? && env.verdict.Valid?
    && env.meanwhile == [] && env.afterwards == []
  }

  predicate EndsAs(h: Handler, e: Envelope, env: Env, status: Status, calls: seq<Message>) {
    && (if Favourable(h, env) then |calls| == 1 && Carries(calls[0], h.key.kind, e) else calls == [])
    && status == if !Favourable(h, env) || env.outcome.SendRejected? then Failed
                 else if env.outcome.SendAccepted? then Accepted else Uncertain
  }

  lemma PreparedRowDelivers(h: Handler, e: Envelope, env: Env)
    requires (env.standing.Member? || env.standing.Admin?) && Cleaned(h.key.kind, h.draft, e) && h.actor == h.key.actor
    requires env.claimFault.Clean? && env.reportFault.Clean? && env.verdict.Valid?
    requires env.meanwhile == [] && env.afterwards == []
    ensures var row := Row(h.key.kind, Prepared, h.purpose, h.key.actor, h.request, e, None);
            var (r, calls) := Deliver(row, h.actor, Suppresses(h, row), env);
            EndsAs(h, e, env, r.status, calls)
  {
    var row := Row(h.key.kind, Prepared, h.purpose, h.key.actor, h.request, e, None);
    LowerTwice(TrimSpace(h.draft.sender));
    AttemptCallsExactly(row, h.actor, Suppresses(h, row), env);
    AttemptEndsAs(row, h.actor, Suppresses(h, row), env);
  }

  lemma PreparedRequestDelivers(s: State, id: nat, h: Handler, e: Envelope, env: Env)
    returns (acts: seq<Action>, row: Row, calls: seq<Message>)
    requires id in s.handlers && s.handlers[id] == h.(pc := Claiming) && h.actor == h.key.actor && h.key in s.rows
    requires s.rows[h.key] == Row(h.key.kind, Prepared, h.purpose, h.key.actor, h.request, e, None)
    requires (env.standing.Member? || env.standing.Admin?) && Undisturbed(s, h, env)
    requires Cleaned(h.key.kind, h.draft, e)
    ensures OnlySteps(acts, id) && EndsAs(h, e, env, row.status, calls)
    ensures Ended(s, RunFrom(s, acts), id, h.key, row, calls)
  {
    PreparedRowDelivers(h, e, env);
    acts := RequestDelivers(s, id, env);
    var attempt := Deliver(s.rows[h.key], h.actor, Suppresses(h, s.rows[h.key]), env);
    row, calls := attempt.0, attempt.1;
  }

  lemma PreparedThenEnded(s: State, s1: State, s2: State, id: nat, key: Key, e: Envelope, row: Row, calls: seq<Message>)
    requires key !in s.rows && key in s1.rows && s1.rows == s.rows[key := s1.rows[key]]
    requires s1.log == s.log + [Inserted(key, e)] && Ended(s1, s2, id, key, row, calls)
    ensures s2.rows == s.rows[key := row] && MessagesOf(s2.log, key) == MessagesOf(s.log, key) + calls
  {
    MessagesOfLogged(s.log, Some(Inserted(key, e)), key);
    Overwrite(s.rows, key, s1.rows[key], row);
  }

  lemma FreshRun(s: State, id: nat, h: Handler, first: seq<Action>, s1: State, more: seq<Action>)
    requires first == [Begin(id, h), Step(id, CLEAN), Step(id, CLEAN)] && OnlySteps(more, id)
    requires RunFrom(s, first) == s1
    ensures (first + more)[0] == Begin(id, h) && OnlySteps((first + more)[1..], id)
    ensures RunFrom(s, first + more) == RunFrom(s1, more)
  {
    RunFromAppend(s, first, more, h.key);
    assert (first + more)[1..] == first[1..] + more;
  }

  /**
   * From a writer's request to its end, in any state that knows nothing of its key: if the answers are favourable
   * the provider is called once, with what was written, and the delivery ends as the provider says; if not, the
   * provider is not called and the delivery has failed. Nothing else is touched.
   */
  lemma FreshRequestDelivers(s: State, id: nat, h: Handler, env: Env)
    returns (acts: seq<Action>, e: Envelope, row: Row, calls: seq<Message>)
    requires id !in s.handlers && h.pc.Replaying? && h.actor == h.key.actor && h.key !in s.rows
    requires StandingOf(s, h.actor).Member? || StandingOf(s, h.actor).Admin?
    requires Undisturbed(s, h, env)
    ensures |acts| > 0 && acts[0] == Begin(id, h) && OnlySteps(acts[1..], id)
    ensures Cleaned(h.key.kind, h.draft, e) && EndsAs(h, e, env, row.status, calls)
    ensures RunFrom(s, acts).rows == s.rows[h.key := row]
    ensures MessagesOf(RunFrom(s, acts).log, h.key) == MessagesOf(s.log, h.key) + calls
  {
    var first, more;
    first, e := FreshRequestPrepares(s, id, h);
    var s1 := RunFrom(s, first);
    more, row, calls := PreparedRequestDelivers(s1, id, h, e, env);
    PreparedThenEnded(s, s1, RunFrom(s1, more), id, h.key, e, row, calls);
    FreshRun(s, id, h, first, s1, more);
    acts := first + more;
  }

  // ---- In every run ----

  /** A request stays what it was asked to be. */
  lemma MoveKeepsRequest(h: Handler, at: Scene, input: Input)
    ensures var h' := Advance(h, at, input).handler;
            && h'.key == h.key && h'.actor == h.actor && h'.request == h.request && h'.purpose == h.purpose
            && h'.draft == h.draft && h'.suppressions == h.suppressions
  {
  }

  ghost predicate SameRequest(h: Handler, h': Handler) {
    && h'.key == h.key && h'.actor == h.actor && h'.request == h.request && h'.purpose == h.purpose
    && h'.draft == h.draft && h'.suppressions == h.suppressions
  }

  lemma RequestsStay(s: State, a: Action)
    ensures forall id :: id in s.handlers ==>
              id in Next(s, a).handlers && SameRequest(s.handlers[id], Next(s, a).handlers[id])
  {
    if a.Step? && a.id in s.handlers {
      MoveKeepsRequest(s.handlers[a.id], SceneOf(s, s.handlers[a.id]), a.input);
    }
  }

  lemma MoveKeepsRow(h: Handler, at: Scene, input: Input)
    requires at.row.Some?
    ensures var row := Advance(h, at, input).row;
            row.Some? && row.value.request == at.row.value.request && row.value.purpose == at.row.value.purpose
  {
    MoveIsChange(h, at, input);
    var c := ChangeOf(h, at, input);
    if c.Some? {
      ChangeKeeps(at.row.value, c.value);
    }
  }

  lemma RowsAreKept(s: State, a: Action, key: Key)
    requires key in s.rows
    ensures key in Next(s, a).rows && Next(s, a).rows[key].request == s.rows[key].request
    ensures Next(s, a).rows[key].purpose == s.rows[key].purpose
  {
    if a.Step? && a.id in s.handlers && s.handlers[a.id].key == key {
      MoveKeepsRow(s.handlers[a.id], SceneOf(s, s.handlers[a.id]), a.input);
    }
  }

  /** Some request of the key's own user asked for this delivery. */
  ghost predicate WasWritten(handlers: map<nat, Handler>, key: Key, e: Envelope) {
    exists id :: id in handlers && handlers[id].key == key && Cleaned(key.kind, handlers[id].draft, e)
  }

  lemma StaysWritten(s: State, a: Action, key: Key, e: Envelope)
    requires WasWritten(s.handlers, key, e)
    ensures WasWritten(Next(s, a).handlers, key, e)
  {
    RequestsStay(s, a);
    var id :| id in s.handlers && s.handlers[id].key == key && Cleaned(key.kind, s.handlers[id].draft, e);
    assert SameRequest(s.handlers[id], Next(s, a).handlers[id]);
  }

  lemma InsertIsWritten(h: Handler, at: Scene, input: Input)
    ensures var m := Advance(h, at, input);
            m.event.Some? && m.event.value.Inserted? ==>
              m.event.value.key == h.key && Cleaned(h.key.kind, h.draft, m.event.value.envelope)
  {
  }

  lemma NewInsertIsWritten(s: State, a: Action, key: Key, e: Envelope)
    requires Inserted(key, e) in Next(s, a).log && Inserted(key, e) !in s.log
    ensures WasWritten(Next(s, a).handlers, key, e)
  {
    var h := s.handlers[a.id];
    InsertIsWritten(h, SceneOf(s, h), a.input);
    RequestsStay(s, a);
    assert SameRequest(h, Next(s, a).handlers[a.id]);
  }

  lemma {:induction false} InsertsAreWritten(acts: seq<Action>, key: Key, e: Envelope)
    requires Inserted(key, e) in Run(acts).log
    ensures WasWritten(Run(acts).handlers, key, e)
  {
    var s, a := Run(acts[..|acts| - 1]), acts[|acts| - 1];
    if Inserted(key, e) in s.log {
      InsertsAreWritten(acts[..|acts| - 1], key, e);
      StaysWritten(s, a, key, e);
    } else {
      NewInsertIsWritten(s, a, key, e);
    }
  }

  /** In every run, what the provider is given is what a request of that key wrote, cleaned as its store cleans it. */
  lemma CallsCarryWhatWasWritten(acts: seq<Action>, i: nat) returns (id: nat, e: Envelope)
    requires i < |Run(acts).log| && Run(acts).log[i].Called?
    ensures var s, call := Run(acts), Run(acts).log[i];
            && id in s.handlers && s.handlers[id].key == call.key
            && Cleaned(call.key.kind, s.handlers[id].draft, e) && Carries(call.message, call.key.kind, e)
  {
    var s, call := Run(acts), Run(acts).log[i];
    var c, from := CallsAreCleared(acts, i);
    e := c.envelope;
    assert Inserted(call.key, e) in s.log[..i];
    InsertsAreWritten(acts, call.key, e);
    id :| id in s.handlers && s.handlers[id].key == call.key && Cleaned(call.key.kind, s.handlers[id].draft, e);
  }

  /** Only a member or an administrator gets a delivery prepared, and only under a key not in use. */
  lemma OnlyWritersPrepare(s: State, a: Action)
    requires EventOf(s, a).Some? && EventOf(s, a).value.Inserted?
    ensures var h := s.handlers[a.id];
            && EventOf(s, a).value.key == h.key && h.key !in s.rows
            && h.actor in s.standings && (s.standings[h.actor].Member? || s.standings[h.actor].Admin?)
  {
  }

  // ---- Suppression ----

  /** The suppression list is asked wherever there is one, except about test emails. */
  predicate MustAsk(h: Handler, row: Row) {
    h.suppressions && (h.key.kind.RecordEmail? ==> row.purpose.Customer?)
  }

  ghost predicate AsksRight(rows: map<Key, Row>, h: Handler) {
    Armed(h) ==> h.key in rows && (h.claim.suppress <==> MustAsk(h, rows[h.key]))
  }

  lemma MoveAsksRight(h: Handler, at: Scene, input: Input)
    requires at.row.Some? && at.row.value.kind == h.key.kind
    requires Armed(h) ==> (h.claim.suppress <==> MustAsk(h, at.row.value))
    ensures var h' := Advance(h, at, input).handler;
            Armed(h') ==> (h'.claim.suppress <==> MustAsk(h', at.row.value))
  {
  }

  lemma NeedsRow(h: Handler, at: Scene, input: Input)
    requires at.row.None? && !Armed(h)
    ensures !Armed(Advance(h, at, input).handler)
  {
  }

  lemma StepAsksRight(s: State, id: nat, input: Input)
    requires Inv(s) && id in s.handlers && AsksRight(s.rows, s.handlers[id])
    ensures var s' := Next(s, Step(id, input)); AsksRight(s'.rows, s'.handlers[id])
  {
    var h := s.handlers[id];
    if h.key in s.rows {
      assert RowOk(s.log, h.key, s.rows[h.key]);
      RowsAreKept(s, Step(id, input), h.key);
      MoveAsksRight(h, SceneOf(s, h), input);
      MoveKeepsRequest(h, SceneOf(s, h), input);
    } else {
      NeedsRow(h, SceneOf(s, h), input);
    }
  }

  lemma OthersAskRight(s: State, a: Action, id: nat)
    requires id in s.handlers && AsksRight(s.rows, s.handlers[id]) && id in Next(s, a).handlers
    requires !(a.Step? && a.id == id)
    ensures AsksRight(Next(s, a).rows, Next(s, a).handlers[id])
  {
    if s.handlers[id].key in s.rows {
      RowsAreKept(s, a, s.handlers[id].key);
    }
  }

  lemma {:induction false} RequestsAskRight(acts: seq<Action>, id: nat)
    requires id in Run(acts).handlers
    ensures AsksRight(Run(acts).rows, Run(acts).handlers[id])
  {
    if acts != [] {
      var s, a := Run(acts[..|acts| - 1]), acts[|acts| - 1];
      if id in s.handlers {
        RequestsAskRight(acts[..|acts| - 1], id);
        RunKeeps(acts[..|acts| - 1]);
        if a.Step? && a.id == id {
          StepAsksRight(s, id, a.input);
        } else {
          OthersAskRight(s, a, id);
        }
      }
    }
  }

  lemma CallComesLast(h: Handler, at: Scene, input: Input)
    ensures var m := Advance(h, at, input);
            m.event.Some? && m.event.value.Called? ==> h.pc == Checking([])
  {
  }

  lemma AskedBefore(log: seq<Event>, rows: map<Key, Row>, h: Handler)
    requires HandlerOk(log, rows, h) && AsksRight(rows, h) && h.pc == Checking([])
    ensures h.key in rows && (MustAsk(h, rows[h.key]) ==> SuppressionCleared(h.key, h.epoch) in log)
  {
  }

  /** In every run, no request with a suppression list calls the provider, other than for a test email, before the
      list has cleared the recipient in this very attempt. */
  lemma CallsAskSuppression(acts: seq<Action>, a: Action)
    requires EventOf(Run(acts), a).Some? && EventOf(Run(acts), a).value.Called?
    ensures var s := Run(acts);
            var h := s.handlers[a.id];
            && h.key in s.rows
            && (h.suppressions && (h.key.kind.RecordEmail? ==> s.rows[h.key].purpose.Customer?)
                ==> SuppressionCleared(h.key, h.epoch) in s.log)
  {
    var s := Run(acts);
    RunKeeps(acts);
    RequestsAskRight(acts, a.id);
    var h := s.handlers[a.id];
    CallComesLast(h, SceneOf(s, h), a.input);
    AskedBefore(s.log, s.rows, h);
  }

  // ---- A key used for something else ----

  /** The request has lost its key to another one, and does nothing. */
  ghost predicate TurnedAway(s: State, id: nat) {
    && id in s.handlers && s.handlers[id].key in s.rows
    && s.rows[s.handlers[id].key].request != s.handlers[id].request
    && (s.handlers[id].pc.Replaying? || s.handlers[id].pc.Finished?)
  }

  lemma MoveTurnsAway(h: Handler, at: Scene, input: Input)
    requires at.row.Some? && at.row.value.request != h.request && (h.pc.Replaying? || h.pc.Finished?)
    ensures var m := Advance(h, at, input); m.row == at.row && m.event.None? && m.handler.pc.Finished?
  {
  }

  lemma StepTurnsAway(s: State, id: nat, input: Input)
    requires TurnedAway(s, id)
    ensures var s' := Next(s, Step(id, input));
            s'.rows == s.rows && s'.log == s.log && id in s'.handlers && s'.handlers[id].pc.Finished?
  {
    var h := s.handlers[id];
    MoveTurnsAway(h, SceneOf(s, h), input);
  }

  lemma OthersStayTurnedAway(s: State, a: Action, id: nat)
    requires TurnedAway(s, id) && !(a.Step? && a.id == id)
    ensures var s' := Next(s, a);
            id in s'.handlers && (s'.handlers[id] == s.handlers[id] || s'.handlers[id].pc.Finished?)
  {
  }

  lemma StaysTurnedAway(s: State, a: Action, id: nat)
    requires TurnedAway(s, id)
    ensures TurnedAway(Next(s, a), id)
  {
    if a.Step? && a.id == id {
      StepTurnsAway(s, id, a.input);
    } else {
      OthersStayTurnedAway(s, a, id);
    }
    RowsAreKept(s, a, s.handlers[id].key);
    RequestsStay(s, a);
    assert SameRequest(s.handlers[id], Next(s, a).handlers[id]);
  }

  /** A request under a key that stands for a different request never gets to claim, whatever happens around it. */
  lemma {:induction false} ReusedKeyIsRefused(s: State, id: nat, h: Handler, more: seq<Action>)
    requires id !in s.handlers && h.pc.Replaying? && h.actor == h.key.actor
    requires h.key in s.rows && s.rows[h.key].request != h.request
    ensures TurnedAway(RunFrom(Next(s, Begin(id, h)), more), id)
  {
    if more != [] {
      ReusedKeyIsRefused(s, id, h, more[..|more| - 1]);
      StaysTurnedAway(RunFrom(Next(s, Begin(id, h)), more[..|more| - 1]), more[|more| - 1], id);
    }
  }
}
