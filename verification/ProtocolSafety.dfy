/** Safety of every run: each recorded retry, and the first preparation, pay for at most one provider call. */
module ProtocolSafety {
  import opened Basics
  import opened Text
  import opened DeliveryStore
  import opened Senders
  import opened Protocol

  // ---- The invariant ----

  /** The request holds a claim it has not yet reported on. */
  predicate Armed(h: Handler) {
    h.pc.Checking? || h.pc.InFlight? || h.pc.Completing? || h.pc.Failing?
  }

  ghost predicate RowOk(log: seq<Event>, key: Key, row: Row) {
    && row.kind == key.kind && row.actor == key.actor
    && TrimSpace(row.envelope.sender) == row.envelope.sender
    && (!Final(row.status) ==> Inserted(key, row.envelope) in log)
    && (row.status.Prepared? ==> forall c :: ClaimTaken(key, Epoch(log, key), c) !in log)
    && (row.status.Accepted? ==> Confirmed(key) in log || exists n :: Delivered(key, n) in log)
  }

  /** The evidence a provider call leaves before it in the history. */
  ghost predicate Evidence(log: seq<Event>, key: Key, epoch: nat, message: Message, c: Claimed, from: string) {
    && ClaimTaken(key, epoch, c) in log
    && SenderMatched(key, epoch, from) in log
    && SameMailbox(from, c.envelope.sender)
    && (c.suppress ==> SuppressionCleared(key, epoch) in log)
    && message == Compose(c.kind, c.envelope)
  }

  ghost predicate EventOk(log: seq<Event>, rows: map<Key, Row>, e: Event) {
    && e.key in rows
    && match e
       case DeclaredNotSent(key) => rows[key].status.Failed?
       case ClaimTaken(key, epoch, c) =>
         epoch <= Epoch(log, key) && c.kind == key.kind && Inserted(key, c.envelope) in log
       case Called(key, epoch, m) => exists c, from :: Evidence(log, key, epoch, m, c, from)
       case Rejected(key, epoch) => exists m :: Called(key, epoch, m) in log
       case Delivered(key, epoch) => exists m :: Called(key, epoch, m) in log
       case _ => true
  }

  /** No question is asked twice, and the account is loaded before the sender is compared with it. */
  predicate WellOrdered(todo: seq<Check>) {
    todo != [] ==>
      && todo[0] !in todo[1..]
      && (todo[0].LoadAccount? ==> MatchSender in todo[1..])
      && WellOrdered(todo[1..])
  }

  lemma ChecksAreComplete(kind: Kind, suppress: bool)
    ensures var all := Checks(kind, suppress);
            && WellOrdered(all) && LoadAccount in all && MatchSender in all
            && (CheckSuppression in all <==> suppress)
  {
    var all := Checks(kind, suppress);
    assert WellOrdered([MatchSender]) && WellOrdered([CheckSuppression]);
    assert [CheckSuppression, MatchSender][1..] == [MatchSender];
    assert [MatchSender, CheckSuppression][1..] == [CheckSuppression];
    assert [LoadAccount, MatchSender][1..] == [MatchSender];
    if suppress {
      assert Checks(RecordEmail, true)[1..] == [MatchSender, CheckSuppression];
      assert Checks(DealQuote, true)[1..] == [LoadAccount, MatchSender];
      assert Checks(ThreadReply, true)[1..] == [CheckSuppression, MatchSender];
    } else {
      assert all == [LoadAccount, MatchSender];
    }
  }

  ghost predicate HandlerOk(log: seq<Event>, rows: map<Key, Row>, h: Handler) {
    Armed(h) ==>
      && h.key in rows && h.actor == h.key.actor
      && ClaimTaken(h.key, h.epoch, h.claim) in log
      && (h.pc.Checking? ==>
            && WellOrdered(h.pc.todo)
            && (MatchSender !in h.pc.todo ==>
                  SenderMatched(h.key, h.epoch, h.from) in log && SameMailbox(h.from, h.claim.envelope.sender))
            && (h.claim.suppress && CheckSuppression !in h.pc.todo ==> SuppressionCleared(h.key, h.epoch) in log)
            && forall m :: Called(h.key, h.epoch, m) !in log)
      && (h.pc.InFlight? ==>
            (exists m :: Called(h.key, h.epoch, m) in log) && Rejected(h.key, h.epoch) !in log
            && Delivered(h.key, h.epoch) !in log)
      && (h.pc == Failing(false) ==>
            forall m :: Called(h.key, h.epoch, m) in log ==> Rejected(h.key, h.epoch) in log)
      && (h.pc.Completing? ==> Delivered(h.key, h.epoch) in log)
  }

  ghost predicate Distinct(handlers: map<nat, Handler>) {
    forall i, j :: i in handlers && j in handlers && i != j && Armed(handlers[i]) && Armed(handlers[j]) ==>
      !(handlers[i].key == handlers[j].key && handlers[i].epoch == handlers[j].epoch)
  }

  /** A definite rejection means that the provider did not take the mail. */
  ghost predicate RejectedStays(log: seq<Event>) {
    forall key, n :: Rejected(key, n) in log ==> Delivered(key, n) !in log
  }

  ghost predicate UniqueClaims(log: seq<Event>) {
    forall key, n, c, c' :: ClaimTaken(key, n, c) in log && ClaimTaken(key, n, c') in log ==> c == c'
  }

  ghost predicate UniqueInserts(log: seq<Event>) {
    forall key, e, e' :: Inserted(key, e) in log && Inserted(key, e') in log ==> e == e'
  }

  ghost predicate RowsOk(log: seq<Event>, rows: map<Key, Row>) {
    forall key :: key in rows ==> RowOk(log, key, rows[key])
  }

  ghost predicate HandlersOk(log: seq<Event>, rows: map<Key, Row>, handlers: map<nat, Handler>) {
    forall id :: id in handlers ==> HandlerOk(log, rows, handlers[id])
  }

  ghost predicate EventsOk(log: seq<Event>, rows: map<Key, Row>) {
    forall e :: e in log ==> EventOk(log, rows, e)
  }

  ghost predicate Inv(s: State) {
    && RowsOk(s.log, s.rows)
    && EventsOk(s.log, s.rows)
    && HandlersOk(s.log, s.rows, s.handlers)
    && Distinct(s.handlers)
    && UniqueClaims(s.log)
    && UniqueInserts(s.log)
    && RejectedStays(s.log)
  }

  lemma LoggedFacts(log: seq<Event>, event: Option<Event>)
    ensures forall e :: e in Logged(log, event) <==> e in log || event == Some(e)
    ensures forall key :: Epoch(Logged(log, event), key)
                          == Epoch(log, key) + if event == Some(Retried(key)) then 1 else 0
  {
  }

  // ---- One step, seen from its own key ----

  /** What a step does to an existing row, as one of the store's changes; nothing for a step that only reads. */
  function ChangeOf(h: Handler, at: Scene, input: Input): Option<Change> {
    match h.pc
    case Resolving(resolution) =>
      if input.fault.ErrorBefore? || h.key.kind.DealQuote? then None
      else Some(Resolve(h.actor, at.standing, resolution))
    case Settling(resolution, standing) =>
      if input.fault.ErrorBefore? then None else Some(Resolve(h.actor, standing, resolution))
    case Claiming =>
      if input.fault.ErrorBefore? then None else Some(Change.Claim(h.actor, at.standing, input.verdict, at.now))
    case Completing => if input.fault.ErrorBefore? then None else Some(Change.Complete)
    case Failing(uncertain) => if input.fault.ErrorBefore? then None else Some(Change.Fail(uncertain))
    case _ => None
  }

  lemma MoveIsChange(h: Handler, at: Scene, input: Input)
    requires at.row.Some?
    ensures var c := ChangeOf(h, at, input);
            Advance(h, at, input).row == Some(if c.None? then at.row.value else Apply(at.row.value, c.value))
  {
  }

  /** A step leaves at most one event, about its own key, and keeps the request's identity. */
  ghost predicate Local(h: Handler, m: Move) {
    && (m.event.Some? ==> m.event.value.key == h.key)
    && m.handler.key == h.key && m.handler.actor == h.actor
  }

  lemma ReadingIsLocal(h: Handler, at: Scene, input: Input)
    requires h.pc.Replaying? || h.pc.Preparing? || h.pc.Checking? || h.pc.InFlight? || h.pc.Finished?
    ensures Local(h, Advance(h, at, input))
  {
  }

  lemma StoringIsLocal(h: Handler, at: Scene, input: Input)
    requires h.pc.Resolving? || h.pc.Settling? || h.pc.Claiming? || h.pc.Completing? || h.pc.Failing?
    ensures Local(h, Advance(h, at, input))
  {
  }

  /** Locally, a step keeps identities, and a row that is over. */
  lemma MoveIsLocal(h: Handler, at: Scene, input: Input)
    ensures var m := Advance(h, at, input);
            && Local(h, m)
            && (at.row.Some? ==>
                  && m.row.Some? && m.row.value.actor == at.row.value.actor
                  && (Final(at.row.value.status) ==> m.row == at.row))
  {
    if h.pc.Resolving? || h.pc.Settling? || h.pc.Claiming? || h.pc.Completing? || h.pc.Failing? {
      StoringIsLocal(h, at, input);
    } else {
      ReadingIsLocal(h, at, input);
    }
    if at.row.Some? {
      MoveIsChange(h, at, input);
      var c := ChangeOf(h, at, input);
      if c.Some? {
        ChangeKeeps(at.row.value, c.value);
      }
    }
  }

  /** What one step can do, in the terms the invariant uses. */
  ghost predicate Kept(log: seq<Event>, rows: map<Key, Row>, log': seq<Event>, rows': map<Key, Row>) {
    && rows.Keys <= rows'.Keys
    && (forall key :: key in rows && rows[key].status.Failed? ==> rows'[key].status.Failed?)
    && (forall e :: e in log ==> e in log')
    && (forall key :: Epoch(log, key) <= Epoch(log', key))
  }

  lemma StepKeeps(s: State, h: Handler, input: Input)
    ensures var m := Advance(h, SceneOf(s, h), input);
            Kept(s.log, s.rows, Logged(s.log, m.event), Stored(s.rows, h.key, m.row))
  {
    MoveIsLocal(h, SceneOf(s, h), input);
    LoggedFacts(s.log, Advance(h, SceneOf(s, h), input).event);
  }

  /** What a step of a request may rely on about its own key. */
  ghost predicate OwnOk(log: seq<Event>, rows: map<Key, Row>, h: Handler, at: Scene) {
    && at.row == RowOf(rows, h.key) && at.epoch == Epoch(log, h.key)
    && HandlerOk(log, rows, h)
    && (at.row.Some? ==> RowOk(log, h.key, at.row.value))
  }

  /** What it must establish again. */
  ghost predicate MoveOk(log: seq<Event>, rows: map<Key, Row>, m: Move) {
    var log', rows' := Logged(log, m.event), Stored(rows, m.handler.key, m.row);
    && HandlerOk(log', rows', m.handler)
    && (m.row.Some? ==> RowOk(log', m.handler.key, m.row.value))
    && (m.event.Some? ==> EventOk(log', rows', m.event.value))
  }

  lemma AtReplay(log: seq<Event>, rows: map<Key, Row>, h: Handler, at: Scene, input: Input)
    requires OwnOk(log, rows, h, at) && h.pc.Replaying?
    ensures MoveOk(log, rows, ReplayStep(h, at.row, input))
  {
  }

  lemma AtPrepare(log: seq<Event>, rows: map<Key, Row>, h: Handler, at: Scene, input: Input)
    requires OwnOk(log, rows, h, at) && EventsOk(log, rows) && h.pc.Preparing?
    ensures MoveOk(log, rows, PrepareStep(h, at.row, at.standing, input))
  {
    TrimLowerTrim(h.draft.sender);
    LoggedFacts(log, PrepareStep(h, at.row, at.standing, input).event);
    forall n, c ensures at.row.None? ==> ClaimTaken(h.key, n, c) !in log {
      assert ClaimTaken(h.key, n, c) in log ==> EventOk(log, rows, ClaimTaken(h.key, n, c));
    }
  }

  /** Every claim so far is in an epoch that has begun. */
  lemma ClaimsHaveBegun(log: seq<Event>, rows: map<Key, Row>, key: Key)
    requires EventsOk(log, rows)
    ensures forall n: nat, c :: ClaimTaken(key, n, c) in log ==> n <= Epoch(log, key)
  {
    forall n: nat, c | ClaimTaken(key, n, c) in log ensures n <= Epoch(log, key) {
      assert EventOk(log, rows, ClaimTaken(key, n, c));
    }
  }

  lemma AtResolve(log: seq<Event>, rows: map<Key, Row>, h: Handler, at: Scene, resolution: Resolution,
                  standing: Standing, input: Input)
    requires OwnOk(log, rows, h, at) && EventsOk(log, rows) && !Armed(h) && at.row.Some?
    ensures MoveOk(log, rows, ResolveStep(h, at.row.value, resolution, standing, input))
  {
    ClaimsHaveBegun(log, rows, h.key);
    LoggedFacts(log, ResolveStep(h, at.row.value, resolution, standing, input).event);
  }

  /** A claimable row is in an epoch nobody has acted in yet. */
  lemma FreshEpoch(log: seq<Event>, rows: map<Key, Row>, key: Key)
    requires key in rows && rows[key].status.Prepared? && RowOk(log, key, rows[key]) && EventsOk(log, rows)
    ensures forall m :: Called(key, Epoch(log, key), m) !in log
    ensures Delivered(key, Epoch(log, key)) !in log
  {
    var n := Epoch(log, key);
    forall m ensures Called(key, n, m) !in log {
      assert Called(key, n, m) in log ==> EventOk(log, rows, Called(key, n, m));
    }
    assert Delivered(key, n) in log ==> EventOk(log, rows, Delivered(key, n));
  }

  lemma ClaimIsTaken(log: seq<Event>, rows: map<Key, Row>, h: Handler, at: Scene, input: Input)
    requires OwnOk(log, rows, h, at) && h.pc.Claiming? && at.row.Some?
    requires at.row.value.status.Prepared? ==> forall m :: Called(h.key, at.epoch, m) !in log
    ensures var m := ClaimStep(h, at.row.value, at.epoch, at.standing, at.now, input);
            HandlerOk(Logged(log, m.event), Stored(rows, h.key, m.row), m.handler)
  {
    var row := at.row.value;
    LoggedFacts(log, ClaimStep(h, row, at.epoch, at.standing, at.now, input).event);
    ChecksAreComplete(row.kind, Suppresses(h, row));
  }

  lemma ClaimLeavesRow(log: seq<Event>, rows: map<Key, Row>, h: Handler, at: Scene, input: Input)
    requires OwnOk(log, rows, h, at) && h.pc.Claiming? && at.row.Some?
    ensures var m := ClaimStep(h, at.row.value, at.epoch, at.standing, at.now, input);
            && RowOk(Logged(log, m.event), h.key, m.row.value)
            && (m.event.Some? ==> EventOk(Logged(log, m.event), Stored(rows, h.key, m.row), m.event.value))
  {
    LoggedFacts(log, ClaimStep(h, at.row.value, at.epoch, at.standing, at.now, input).event);
  }

  lemma AtClaim(log: seq<Event>, rows: map<Key, Row>, h: Handler, at: Scene, input: Input)
    requires OwnOk(log, rows, h, at) && EventsOk(log, rows) && h.pc.Claiming? && at.row.Some?
    ensures MoveOk(log, rows, ClaimStep(h, at.row.value, at.epoch, at.standing, at.now, input))
  {
    if at.row.value.status.Prepared? {
      FreshEpoch(log, rows, h.key);
    }
    ClaimIsTaken(log, rows, h, at, input);
    ClaimLeavesRow(log, rows, h, at, input);
  }

  /** A request still checking has called nobody in its epoch, so nothing was delivered or rejected in it. */
  lemma NothingAnswered(log: seq<Event>, rows: map<Key, Row>, h: Handler)
    requires HandlerOk(log, rows, h) && h.pc.Checking? && EventsOk(log, rows)
    ensures Delivered(h.key, h.epoch) !in log && Rejected(h.key, h.epoch) !in log
  {
    assert Delivered(h.key, h.epoch) in log ==> EventOk(log, rows, Delivered(h.key, h.epoch));
    assert Rejected(h.key, h.epoch) in log ==> EventOk(log, rows, Rejected(h.key, h.epoch));
  }

  lemma AtCall(log: seq<Event>, rows: map<Key, Row>, h: Handler, at: Scene, input: Input)
    requires OwnOk(log, rows, h, at) && h.pc == Checking([])
    requires Delivered(h.key, h.epoch) !in log && Rejected(h.key, h.epoch) !in log
    ensures MoveOk(log, rows, CheckStep(h, at.row, input))
  {
    var m := CheckStep(h, at.row, input);
    LoggedFacts(log, m.event);
    assert Evidence(Logged(log, m.event), h.key, h.epoch, m.event.value.message, h.claim, h.from);
  }

  /** One check out of the way: the rest are still in order. */
  lemma CheckLeavesRow(log: seq<Event>, rows: map<Key, Row>, h: Handler, at: Scene, input: Input)
    requires OwnOk(log, rows, h, at) && h.pc.Checking? && h.pc.todo != []
    ensures var m := CheckStep(h, at.row, input);
            && (m.row.Some? ==> RowOk(Logged(log, m.event), h.key, m.row.value))
            && (m.event.Some? ==> EventOk(Logged(log, m.event), Stored(rows, h.key, m.row), m.event.value))
  {
    LoggedFacts(log, CheckStep(h, at.row, input).event);
  }

  lemma CheckIsPassed(log: seq<Event>, rows: map<Key, Row>, h: Handler, at: Scene, input: Input)
    requires OwnOk(log, rows, h, at) && h.pc.Checking? && h.pc.todo != []
    requires Delivered(h.key, h.epoch) !in log && Rejected(h.key, h.epoch) !in log
    ensures var m := CheckStep(h, at.row, input);
            HandlerOk(Logged(log, m.event), Stored(rows, h.key, m.row), m.handler)
  {
    LoggedFacts(log, CheckStep(h, at.row, input).event);
    var todo := h.pc.todo;
    assert forall c :: c in todo <==> c == todo[0] || c in todo[1..];
  }

  lemma AtQuestion(log: seq<Event>, rows: map<Key, Row>, h: Handler, at: Scene, input: Input)
    requires OwnOk(log, rows, h, at) && h.pc.Checking? && h.pc.todo != []
    requires Delivered(h.key, h.epoch) !in log && Rejected(h.key, h.epoch) !in log
    ensures MoveOk(log, rows, CheckStep(h, at.row, input))
  {
    CheckIsPassed(log, rows, h, at, input);
    CheckLeavesRow(log, rows, h, at, input);
    assert CheckStep(h, at.row, input).handler.key == h.key;
  }

  lemma AtCheck(log: seq<Event>, rows: map<Key, Row>, h: Handler, at: Scene, input: Input)
    requires OwnOk(log, rows, h, at) && EventsOk(log, rows) && h.pc.Checking?
    ensures MoveOk(log, rows, CheckStep(h, at.row, input))
  {
    NothingAnswered(log, rows, h);
    if h.pc.todo == [] {
      AtCall(log, rows, h, at, input);
    } else {
      AtQuestion(log, rows, h, at, input);
    }
  }

  lemma AtProvider(log: seq<Event>, rows: map<Key, Row>, h: Handler, at: Scene, input: Input)
    requires OwnOk(log, rows, h, at) && h.pc.InFlight?
    ensures MoveOk(log, rows, ProviderStep(h, at.row, input))
  {
    LoggedFacts(log, ProviderStep(h, at.row, input).event);
  }

  lemma AtReport(log: seq<Event>, rows: map<Key, Row>, h: Handler, at: Scene, input: Input)
    requires OwnOk(log, rows, h, at) && at.row.Some?
    ensures h.pc.Completing? ==> MoveOk(log, rows, CompleteStep(h, at.row.value, input))
    ensures h.pc.Failing? ==> MoveOk(log, rows, FailStep(h, at.row.value, h.pc.uncertain, input))
  {
  }

  lemma AtSettle(log: seq<Event>, rows: map<Key, Row>, h: Handler, at: Scene, input: Input)
    requires OwnOk(log, rows, h, at) && EventsOk(log, rows) && (h.pc.Resolving? || h.pc.Settling?)
    ensures MoveOk(log, rows, Advance(h, at, input))
  {
    if at.row.Some? {
      AtResolve(log, rows, h, at, h.pc.resolution, if h.pc.Settling? then h.pc.standing else at.standing, input);
    }
  }

  lemma OwnStep(log: seq<Event>, rows: map<Key, Row>, h: Handler, at: Scene, input: Input)
    requires OwnOk(log, rows, h, at) && EventsOk(log, rows)
    ensures MoveOk(log, rows, Advance(h, at, input))
  {
    match h.pc {
      case Replaying => AtReplay(log, rows, h, at, input);
      case Preparing => AtPrepare(log, rows, h, at, input);
      case Resolving(_) => AtSettle(log, rows, h, at, input);
      case Settling(_, _) => AtSettle(log, rows, h, at, input);
      case Claiming =>
        if at.row.Some? {
          AtClaim(log, rows, h, at, input);
        }
      case Checking(_) => AtCheck(log, rows, h, at, input);
      case InFlight => AtProvider(log, rows, h, at, input);
      case Completing => AtReport(log, rows, h, at, input);
      case Failing(_) => AtReport(log, rows, h, at, input);
      case Finished =>
    }
  }

  predicate OfCall(e: Event) {
    e.Called? || e.Delivered? || e.Rejected?
  }

  /** Where events and claims come from. */
  ghost predicate Sourced(h: Handler, at: Scene, m: Move) {
    && (m.event.Some? && OfCall(m.event.value) ==> Armed(h) && m.event.value.epoch == h.epoch)
    && (m.event.Some? && m.event.value.ClaimTaken? ==>
          at.row.Some? && at.row.value.status.Prepared? && m.event.value.epoch == at.epoch)
    && (m.event.Some? && m.event.value.Inserted? ==> at.row.None?)
    && (Armed(m.handler) ==>
          if Armed(h) then m.handler.epoch == h.epoch
          else at.row.Some? && at.row.value.status.Prepared? && m.handler.epoch == at.epoch)
  }

  lemma ArmedIsSourced(h: Handler, at: Scene, input: Input)
    requires Armed(h)
    ensures Sourced(h, at, Advance(h, at, input))
  {
  }

  lemma ClaimIsSourced(h: Handler, at: Scene, input: Input)
    requires h.pc.Claiming?
    ensures Sourced(h, at, Advance(h, at, input))
  {
  }

  lemma OtherIsSourced(h: Handler, at: Scene, input: Input)
    requires !Armed(h) && !h.pc.Claiming?
    ensures Sourced(h, at, Advance(h, at, input))
  {
  }

  lemma MoveSource(h: Handler, at: Scene, input: Input)
    ensures Sourced(h, at, Advance(h, at, input))
  {
    if Armed(h) {
      ArmedIsSourced(h, at, input);
    } else if h.pc.Claiming? {
      ClaimIsSourced(h, at, input);
    } else {
      OtherIsSourced(h, at, input);
    }
  }

  // ---- One step, seen from the rest of the system ----

  lemma EventStays(log: seq<Event>, rows: map<Key, Row>, log': seq<Event>, rows': map<Key, Row>, e: Event)
    requires Kept(log, rows, log', rows') && EventOk(log, rows, e)
    ensures EventOk(log', rows', e)
  {
    if e.Called? {
      var c, from :| Evidence(log, e.key, e.epoch, e.message, c, from);
      assert Evidence(log', e.key, e.epoch, e.message, c, from);
    }
  }

  lemma OthersStay(log: seq<Event>, rows: map<Key, Row>, other: Handler, m: Move)
    requires HandlerOk(log, rows, other)
    requires Kept(log, rows, Logged(log, m.event), Stored(rows, m.handler.key, m.row))
    requires m.event.Some? && OfCall(m.event.value)
             && (if m.event.value.Called? then Armed(other) else other.pc.InFlight?) ==>
               !(m.event.value.key == other.key && m.event.value.epoch == other.epoch)
    ensures HandlerOk(Logged(log, m.event), Stored(rows, m.handler.key, m.row), other)
  {
  }

  lemma OtherRowStays(log: seq<Event>, key: Key, row: Row, event: Option<Event>)
    requires RowOk(log, key, row)
    requires event.Some? ==> event.value.key != key
    ensures RowOk(Logged(log, event), key, row)
  {
    LoggedFacts(log, event);
  }

  lemma RowsStay(log: seq<Event>, rows: map<Key, Row>, m: Move)
    requires RowsOk(log, rows)
    requires m.event.Some? ==> m.event.value.key == m.handler.key
    requires var row' := if m.row.Some? then m.row else RowOf(rows, m.handler.key);
             row'.Some? ==> RowOk(Logged(log, m.event), m.handler.key, row'.value)
    ensures RowsOk(Logged(log, m.event), Stored(rows, m.handler.key, m.row))
  {
    var log', rows' := Logged(log, m.event), Stored(rows, m.handler.key, m.row);
    forall key | key in rows' ensures RowOk(log', key, rows'[key]) {
      if key != m.handler.key {
        OtherRowStays(log, key, rows[key], m.event);
      }
    }
  }

  lemma EventsStay(log: seq<Event>, rows: map<Key, Row>, event: Option<Event>, rows': map<Key, Row>)
    requires EventsOk(log, rows) && Kept(log, rows, Logged(log, event), rows')
    requires event.Some? ==> EventOk(Logged(log, event), rows', event.value)
    ensures EventsOk(Logged(log, event), rows')
  {
    var log' := Logged(log, event);
    LoggedFacts(log, event);
    forall e | e in log' ensures EventOk(log', rows', e) {
      if event != Some(e) {
        EventStays(log, rows, log', rows', e);
      }
    }
  }

  lemma ClaimsStayUnique(log: seq<Event>, event: Option<Event>)
    requires UniqueClaims(log)
    requires event.Some? && event.value.ClaimTaken? ==>
               forall c :: ClaimTaken(event.value.key, event.value.epoch, c) !in log
    ensures UniqueClaims(Logged(log, event))
  {
  }

  lemma InsertsStayUnique(log: seq<Event>, rows: map<Key, Row>, event: Option<Event>)
    requires UniqueInserts(log) && EventsOk(log, rows)
    requires event.Some? && event.value.Inserted? ==> event.value.key !in rows
    ensures UniqueInserts(Logged(log, event))
  {
    LoggedFacts(log, event);
    forall key, e | Inserted(key, e) in log ensures key in rows {
      assert EventOk(log, rows, Inserted(key, e));
    }
  }

  lemma HandlersStay(log: seq<Event>, rows: map<Key, Row>, handlers: map<nat, Handler>, id: nat, m: Move)
    requires HandlersOk(log, rows, handlers) && Distinct(handlers)
    requires id in handlers && m.handler.key == handlers[id].key
    requires Kept(log, rows, Logged(log, m.event), Stored(rows, m.handler.key, m.row))
    requires HandlerOk(Logged(log, m.event), Stored(rows, m.handler.key, m.row), m.handler)
    requires m.event.Some? ==> m.event.value.key == m.handler.key
    requires m.event.Some? && OfCall(m.event.value) ==>
               Armed(handlers[id]) && m.event.value.epoch == handlers[id].epoch
    ensures HandlersOk(Logged(log, m.event), Stored(rows, m.handler.key, m.row), handlers[id := m.handler])
  {
    forall i | i in handlers && i != id
      ensures HandlerOk(Logged(log, m.event), Stored(rows, m.handler.key, m.row), handlers[i])
    {
      OthersStay(log, rows, handlers[i], m);
    }
  }

  lemma StaysDistinct(log: seq<Event>, rows: map<Key, Row>, handlers: map<nat, Handler>, id: nat, h: Handler)
    requires HandlersOk(log, rows, handlers) && Distinct(handlers) && id in handlers && h.key == handlers[id].key
    requires Armed(h) ==>
               if Armed(handlers[id]) then h.epoch == handlers[id].epoch
               else forall c :: ClaimTaken(h.key, h.epoch, c) !in log
    ensures Distinct(handlers[id := h])
  {
    forall i | i in handlers && i != id && Armed(handlers[i]) && Armed(h)
      ensures !(handlers[i].key == h.key && handlers[i].epoch == h.epoch)
    {
      assert HandlerOk(log, rows, handlers[i]);
    }
  }

  /** The answer to a call is the first word on it. */
  lemma AnswerIsFirst(log: seq<Event>, rows: map<Key, Row>, h: Handler, at: Scene, input: Input)
    requires HandlerOk(log, rows, h) && RejectedStays(log)
    ensures RejectedStays(Logged(log, Advance(h, at, input).event))
  {
  }

  /** What is known about a step before looking at the rest of the system. */
  lemma StepFacts(s: State, id: nat, input: Input) returns (m: Move)
    requires Inv(s) && id in s.handlers
    ensures var h := s.handlers[id];
            && m == Advance(h, SceneOf(s, h), input)
            && MoveOk(s.log, s.rows, m) && Kept(s.log, s.rows, Logged(s.log, m.event), Stored(s.rows, h.key, m.row))
            && Local(h, m)
            && (m.row.None? ==> h.key !in s.rows)
            && (m.event.Some? && OfCall(m.event.value) ==> Armed(h) && m.event.value.epoch == h.epoch)
            && RejectedStays(Logged(s.log, m.event))
            && (m.event.Some? && m.event.value.ClaimTaken? ==>
                  forall c :: ClaimTaken(h.key, m.event.value.epoch, c) !in s.log)
            && (m.event.Some? && m.event.value.Inserted? ==> h.key !in s.rows)
            && (Armed(m.handler) ==>
                  if Armed(h) then m.handler.epoch == h.epoch
                  else forall c :: ClaimTaken(h.key, m.handler.epoch, c) !in s.log)
  {
    var h := s.handlers[id];
    m := Advance(h, SceneOf(s, h), input);
    assert OwnOk(s.log, s.rows, h, SceneOf(s, h));
    OwnStep(s.log, s.rows, h, SceneOf(s, h), input);
    StepKeeps(s, h, input);
    MoveIsLocal(h, SceneOf(s, h), input);
    MoveSource(h, SceneOf(s, h), input);
    AnswerIsFirst(s.log, s.rows, h, SceneOf(s, h), input);
  }

  lemma StepKeepsInv(s: State, id: nat, input: Input)
    requires Inv(s) && id in s.handlers
    ensures Inv(Next(s, Step(id, input)))
  {
    var m := StepFacts(s, id, input);
    RowsStay(s.log, s.rows, m);
    EventsStay(s.log, s.rows, m.event, Stored(s.rows, m.handler.key, m.row));
    ClaimsStayUnique(s.log, m.event);
    InsertsStayUnique(s.log, s.rows, m.event);
    HandlersStay(s.log, s.rows, s.handlers, id, m);
    StaysDistinct(s.log, s.rows, s.handlers, id, m.handler);
  }

  lemma DeliveredKeepsRow(log: seq<Event>, key: Key, row: Row, other: Key, n: nat)
    requires RowOk(log, key, row)
    ensures RowOk(Logged(log, Some(Delivered(other, n))), key, row)
  {
    LoggedFacts(log, Some(Delivered(other, n)));
  }

  lemma CrashKeeps(s: State, id: nat, delivered: bool)
    requires Inv(s) && id in s.handlers
    ensures Inv(Next(s, Crash(id, delivered)))
  {
    var h := s.handlers[id];
    var m := Move(h.(pc := Finished), None, CrashEvent(h, delivered));
    LoggedFacts(s.log, m.event);
    if m.event.Some? && h.key in s.rows {
      DeliveredKeepsRow(s.log, h.key, s.rows[h.key], h.key, h.epoch);
    }
    RowsStay(s.log, s.rows, m);
    EventsStay(s.log, s.rows, m.event, s.rows);
    ClaimsStayUnique(s.log, m.event);
    InsertsStayUnique(s.log, s.rows, m.event);
    HandlersStay(s.log, s.rows, s.handlers, id, m);
    StaysDistinct(s.log, s.rows, s.handlers, id, m.handler);
  }

  lemma ArrivalKeepsHandler(log: seq<Event>, rows: map<Key, Row>, h: Handler, key: Key, n: nat)
    requires HandlerOk(log, rows, h) && (h.pc.InFlight? ==> !(h.key == key && h.epoch == n))
    ensures HandlerOk(Logged(log, Some(Delivered(key, n))), rows, h)
  {
  }

  lemma ArrivalKeepsLaws(log: seq<Event>, key: Key, n: nat)
    requires UniqueInserts(log) && RejectedStays(log) && Rejected(key, n) !in log
    ensures var log' := Logged(log, Some(Delivered(key, n))); UniqueInserts(log') && RejectedStays(log')
  {
    LoggedFacts(log, Some(Delivered(key, n)));
  }

  lemma ArrivalKeepsHistory(log: seq<Event>, rows: map<Key, Row>, key: Key, n: nat, m: Message)
    requires EventsOk(log, rows) && UniqueClaims(log) && UniqueInserts(log) && RejectedStays(log)
    requires Called(key, n, m) in log && Rejected(key, n) !in log
    ensures var log' := Logged(log, Some(Delivered(key, n)));
            EventsOk(log', rows) && UniqueClaims(log') && UniqueInserts(log') && RejectedStays(log')
  {
    var event := Some(Delivered(key, n));
    LoggedFacts(log, event);
    assert EventOk(log, rows, Called(key, n, m));
    EventsStay(log, rows, event, rows);
    ClaimsStayUnique(log, event);
    ArrivalKeepsLaws(log, key, n);
  }

  /** Mail that arrives late, for a call nobody rejected. */
  lemma ArrivalKeeps(s: State, key: Key, n: nat, m: Message)
    requires Inv(s) && MayArrive(s, key, n, m)
    ensures Inv(s.(log := Logged(s.log, Some(Delivered(key, n)))))
  {
    var event := Some(Delivered(key, n));
    forall k | k in s.rows ensures RowOk(Logged(s.log, event), k, s.rows[k]) {
      DeliveredKeepsRow(s.log, k, s.rows[k], key, n);
    }
    forall i | i in s.handlers ensures HandlerOk(Logged(s.log, event), s.rows, s.handlers[i]) {
      ArrivalKeepsHandler(s.log, s.rows, s.handlers[i], key, n);
    }
    ArrivalKeepsHistory(s.log, s.rows, key, n, m);
  }

  /** The recovery pass and a disabled account touch rows only as the store's changes `Recover` and `Quiesce` do. */
  ghost predicate Bulk(rows: map<Key, Row>, rows': map<Key, Row>, now: int) {
    && rows'.Keys == rows.Keys
    && forall key :: key in rows ==>
         || rows'[key] == rows[key] || rows'[key] == RecoverSpec(rows[key], now)
         || rows'[key] == QuiesceSpec(rows[key], now)
  }

  lemma BulkKeepsRow(log: seq<Event>, key: Key, row: Row, now: int)
    requires RowOk(log, key, row)
    ensures RowOk(log, key, RecoverSpec(row, now)) && RowOk(log, key, QuiesceSpec(row, now))
    ensures Final(row.status) ==> RecoverSpec(row, now) == row && QuiesceSpec(row, now) == row
  {
  }

  /** Recovery and disabling, of any rows at any moment, keep the invariant. */
  lemma OutsiderKeeps(s: State, rows': map<Key, Row>, now: int)
    requires Inv(s) && Bulk(s.rows, rows', now)
    ensures Inv(s.(rows := rows'))
  {
    forall key | key in s.rows ensures RowOk(s.log, key, rows'[key])
      ensures Final(s.rows[key].status) ==> rows'[key] == s.rows[key]
    {
      BulkKeepsRow(s.log, key, s.rows[key], now);
    }
    EventsStay(s.log, s.rows, None, rows');
    assert HandlersOk(s.log, rows', s.handlers);
  }

  lemma DisableKeeps(s: State, id: nat)
    requires Inv(s)
    ensures Inv(Next(s, Disable(id)))
  {
    if id in s.disablings && TakesEffect(s, s.disablings[id]) {
      OutsiderKeeps(s, Quiesced(s.rows, s.disablings[id]), s.disablings[id].began);
    }
  }

  lemma NextKeeps(s: State, a: Action)
    requires Inv(s)
    ensures Inv(Next(s, a))
  {
    match a {
      case Begin(id, h) =>
      case Step(id, input) =>
        if id in s.handlers {
          StepKeepsInv(s, id, input);
        }
      case Crash(id, delivered) =>
        if id in s.handlers {
          CrashKeeps(s, id, delivered);
        }
      case Arrive(key, n, m) =>
        if MayArrive(s, key, n, m) {
          ArrivalKeeps(s, key, n, m);
        }
      case RecoverPass(keys) => OutsiderKeeps(s, Recovered(s.rows, keys, s.now), s.now);
      case StartDisable(_, _) =>
      case Disable(id) => DisableKeeps(s, id);
      case Appoint(_, _) =>
      case Tick(_) =>
    }
  }

  lemma {:induction false} RunKeeps(acts: seq<Action>)
    ensures Inv(Run(acts))
  {
    if acts != [] {
      RunKeeps(acts[..|acts| - 1]);
      NextKeeps(Run(acts[..|acts| - 1]), acts[|acts| - 1]);
    }
  }

  // ---- Counting provider calls ----

  ghost predicate NoDuplicates(s: seq<nat>) {
    forall i, j :: 0 <= i < j < |s| ==> s[i] != s[j]
  }

  /** Distinct numbers below a bound are no more than the bound. */
  lemma {:induction false} DistinctBelow(s: seq<nat>, bound: nat)
    requires NoDuplicates(s) && forall i :: 0 <= i < |s| ==> s[i] < bound
    ensures |s| <= bound
    decreases bound
  {
    if s != [] {
      assert s[0] < bound;
    }
    if bound != 0 {
      if i :| 0 <= i < |s| && s[i] == bound - 1 {
        DistinctBelow(s[..i] + s[i + 1..], bound - 1);
      } else {
        DistinctBelow(s, bound - 1);
      }
    }
  }

  lemma {:induction false} CallsOfHas(log: seq<Event>, key: Key, n: nat)
    ensures n in CallsOf(log, key) <==> exists m :: Called(key, n, m) in log
  {
    if log != [] {
      var last := log[|log| - 1];
      CallsOfHas(log[..|log| - 1], key, n);
      assert log == log[..|log| - 1] + [last];
      if last.Called? && last.key == key && last.epoch == n {
        assert Called(key, n, last.message) in log;
      }
    }
  }

  lemma CallsOfLogged(log: seq<Event>, event: Option<Event>, key: Key)
    ensures CallsOf(Logged(log, event), key) == CallsOf(log, key)
              + if event.Some? && event.value.Called? && event.value.key == key then [event.value.epoch] else []
  {
  }

  lemma CallIsFirst(log: seq<Event>, rows: map<Key, Row>, h: Handler, at: Scene, input: Input)
    requires HandlerOk(log, rows, h)
    ensures var m := Advance(h, at, input);
            m.event.Some? && m.event.value.Called? ==>
              m.event.value.key == h.key && m.event.value.epoch !in CallsOf(log, h.key)
  {
    CallsOfHas(log, h.key, h.epoch);
  }

  lemma StepCalls(s: State, id: nat, input: Input, key: Key)
    requires Inv(s) && id in s.handlers && NoDuplicates(CallsOf(s.log, key))
    ensures NoDuplicates(CallsOf(Next(s, Step(id, input)).log, key))
  {
    var h := s.handlers[id];
    assert HandlerOk(s.log, s.rows, h);
    CallsOfLogged(s.log, Advance(h, SceneOf(s, h), input).event, key);
    CallIsFirst(s.log, s.rows, h, SceneOf(s, h), input);
  }

  lemma OtherCalls(s: State, a: Action, key: Key)
    requires !(a.Step? && a.id in s.handlers)
    ensures CallsOf(Next(s, a).log, key) == CallsOf(s.log, key)
  {
    if a.Crash? && a.id in s.handlers {
      CallsOfLogged(s.log, CrashEvent(s.handlers[a.id], a.delivered), key);
    } else if a.Arrive? {
      CallsOfLogged(s.log, Some(Delivered(a.key, a.epoch)), key);
    }
  }

  lemma NextCalls(s: State, a: Action, key: Key)
    requires Inv(s) && NoDuplicates(CallsOf(s.log, key))
    ensures NoDuplicates(CallsOf(Next(s, a).log, key))
  {
    if a.Step? && a.id in s.handlers {
      StepCalls(s, a.id, a.input, key);
    } else {
      OtherCalls(s, a, key);
    }
  }

  /** No two provider calls for a key ever share an epoch. */
  lemma {:induction false} CallsAreDistinct(acts: seq<Action>, key: Key)
    ensures NoDuplicates(CallsOf(Run(acts).log, key))
  {
    if acts != [] {
      var n := |acts| - 1;
      CallsAreDistinct(acts[..n], key);
      RunKeeps(acts[..n]);
      NextCalls(Run(acts[..n]), acts[n], key);
    }
  }

  lemma ClaimFacts(s: State, key: Key, n: nat, c: Claimed)
    requires Inv(s) && ClaimTaken(key, n, c) in s.log
    ensures key in s.rows && n <= Epoch(s.log, key) && Inserted(key, c.envelope) in s.log
    ensures s.rows[key].status.Prepared? ==> n < Epoch(s.log, key)
  {
    assert EventOk(s.log, s.rows, ClaimTaken(key, n, c));
    assert RowOk(s.log, key, s.rows[key]);
  }

  lemma CallFacts(s: State, key: Key, n: nat, m: Message) returns (c: Claimed, from: string)
    requires Inv(s) && Called(key, n, m) in s.log
    ensures Evidence(s.log, key, n, m, c, from)
  {
    assert EventOk(s.log, s.rows, Called(key, n, m));
    c, from :| Evidence(s.log, key, n, m, c, from);
  }

  /**
   * Over every interleaving of requests, replays, crashes, lost store calls, recoveries and
   * changes of membership, a key is handed to the provider at most once more often than its sender asked to retry.
   */
  lemma CallsArePaidFor(acts: seq<Action>, key: Key)
    ensures var log := Run(acts).log; |CallsOf(log, key)| <= 1 + multiset(log)[Retried(key)]
  {
    var s := Run(acts);
    RunKeeps(acts);
    CallsAreDistinct(acts, key);
    var calls := CallsOf(s.log, key);
    forall i | 0 <= i < |calls| ensures calls[i] < 1 + Epoch(s.log, key) {
      CallsOfHas(s.log, key, calls[i]);
      var m :| Called(key, calls[i], m) in s.log;
      var c, from := CallFacts(s, key, calls[i], m);
      ClaimFacts(s, key, calls[i], c);
    }
    DistinctBelow(calls, 1 + Epoch(s.log, key));
  }

  /**
   * Once a request has taken a claim - and so before any provider call it may make - the row is claimable
   * again only after a retry recorded later than that claim.
   */
  lemma AmbiguityNeedsRetry(acts: seq<Action>, key: Key, n: nat, m: Message, c: Claimed)
    requires key in Run(acts).rows && Run(acts).rows[key].status.Prepared?
    ensures Called(key, n, m) in Run(acts).log ==> n < Epoch(Run(acts).log, key)
    ensures ClaimTaken(key, n, c) in Run(acts).log ==> n < Epoch(Run(acts).log, key)
  {
    var s := Run(acts);
    RunKeeps(acts);
    if Called(key, n, m) in s.log {
      var c', from := CallFacts(s, key, n, m);
      ClaimFacts(s, key, n, c');
    }
    if ClaimTaken(key, n, c) in s.log {
      ClaimFacts(s, key, n, c);
    }
  }

  lemma LogGrows(s: State, a: Action)
    ensures s.log <= Next(s, a).log && |Next(s, a).log| <= |s.log| + 1
  {
  }

  /** The call just logged has its evidence before it. */
  lemma LastCallIsCleared(s: State, i: nat) returns (c: Claimed, from: string)
    requires Inv(s) && i < |s.log| && s.log[i].Called? && i == |s.log| - 1
    ensures var e := s.log[i];
            Evidence(s.log[..i], e.key, e.epoch, e.message, c, from) && Inserted(e.key, c.envelope) in s.log[..i]
  {
    var e := s.log[i];
    c, from := CallFacts(s, e.key, e.epoch, e.message);
    ClaimFacts(s, e.key, e.epoch, c);
    assert s.log == s.log[..i] + [e];
  }

  lemma {:induction false} CallsHaveEvidence(acts: seq<Action>, i: nat) returns (c: Claimed, from: string)
    requires i < |Run(acts).log| && Run(acts).log[i].Called?
    ensures var log, e := Run(acts).log, Run(acts).log[i];
            Evidence(log[..i], e.key, e.epoch, e.message, c, from) && Inserted(e.key, c.envelope) in log[..i]
  {
    var n := |acts| - 1;
    var s := Run(acts[..n]);
    LogGrows(s, acts[n]);
    if i < |s.log| {
      c, from := CallsHaveEvidence(acts[..n], i);
      assert Run(acts).log[..i] == s.log[..i];
    } else {
      RunKeeps(acts);
      c, from := LastCallIsCleared(Run(acts), i);
    }
  }

  /**
   * Every provider call comes after a claim of its own, a matched sender and, where asked for, a clear suppression
   * check, and carries the one envelope that was ever stored under its key, though finished rows are scrubbed.
   */
  lemma CallsAreCleared(acts: seq<Action>, i: nat) returns (c: Claimed, from: string)
    requires i < |Run(acts).log| && Run(acts).log[i].Called?
    ensures var log, e := Run(acts).log, Run(acts).log[i];
            && Evidence(log[..i], e.key, e.epoch, e.message, c, from)
            && Inserted(e.key, c.envelope) in log[..i] && c.kind == e.key.kind
            && Carries(e.message, e.key.kind, c.envelope)
            && forall envelope :: Inserted(e.key, envelope) in log ==> envelope == c.envelope
  {
    var s, e := Run(acts), Run(acts).log[i];
    c, from := CallsHaveEvidence(acts, i);
    RunKeeps(acts);
    assert forall e' :: e' in s.log[..i] ==> e' in s.log;
    assert EventOk(s.log, s.rows, ClaimTaken(e.key, e.epoch, c));
    ComposeCarries(e.key.kind, c.envelope);
  }

  /** `Accepted` is never invented: the provider took the mail, or the sender or an admin said it was sent. */
  lemma AcceptedIsTrue(acts: seq<Action>, key: Key)
    requires key in Run(acts).rows && Run(acts).rows[key].status.Accepted?
    ensures Confirmed(key) in Run(acts).log || exists n :: Delivered(key, n) in Run(acts).log
  {
    RunKeeps(acts);
    assert RowOk(Run(acts).log, key, Run(acts).rows[key]);
  }
}
