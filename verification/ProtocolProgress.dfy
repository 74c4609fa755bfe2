/** How a delivery comes to an end: what the recovery pass reaches, and who may settle what it leaves uncertain. */
module ProtocolProgress {
  import opened Basics
  import opened DeliveryStore
  import opened Protocol
  import opened ProtocolSafety
  import opened ProtocolRetry
  import opened RecoveryPass

  // ---- Nothing stays in sending ----

  /** A row being sent says since when. */
  predicate Dated(row: Row, now: int) {
    row.status.Sending? ==> row.claimedAt.Some? && row.claimedAt.value <= now
  }

  ghost predicate AllDated(s: State) {
    forall key :: key in s.rows ==> Dated(s.rows[key], s.now)
  }

  lemma MoveStaysDated(h: Handler, at: Scene, input: Input)
    requires at.row.Some? ==> Dated(at.row.value, at.now)
    ensures var m := Advance(h, at, input); m.row.Some? ==> Dated(m.row.value, at.now)
  {
  }

  lemma NextStaysDated(s: State, a: Action)
    requires AllDated(s)
    ensures AllDated(Next(s, a))
  {
    if a.Step? && a.id in s.handlers {
      MoveStaysDated(s.handlers[a.id], SceneOf(s, s.handlers[a.id]), a.input);
    }
  }

  lemma {:induction false} RunStaysDated(acts: seq<Action>)
    ensures AllDated(Run(acts))
  {
    if acts != [] {
      RunStaysDated(acts[..|acts| - 1]);
      NextStaysDated(Run(acts[..|acts| - 1]), acts[|acts| - 1]);
    }
  }

  function SendingKeys(rows: map<Key, Row>, kind: Kind): set<Key> {
    set key | key in rows && key.kind == kind && rows[key].status.Sending?
  }

  /** Once every claim has had its time, the stale rows are all the rows being sent. */
  lemma AllSendingAreStale(s: State, kind: Kind)
    requires AllDated(s)
    ensures StaleKeys(s.rows, kind, s.now + STALE) == SendingKeys(s.rows, kind)
  {
    forall key | key in SendingKeys(s.rows, kind) ensures key in StaleKeys(s.rows, kind, s.now + STALE) {
      assert Dated(s.rows[key], s.now);
    }
  }

  /**
   * After every run, five minutes later, `n` passes of a hundred rows each clear a store of rows in sending if and
   * only if it has no more than `n` hundred of them; each row cleared is uncertain and else as it was.
   */
  lemma NothingIsStuck(acts: seq<Action>, kind: Kind, ids: Ids, n: nat)
    requires DistinctIds(Run(acts).rows.Keys, ids)
    ensures var rows, now := Run(acts).rows, Run(acts).now + 300;
            && DistinctIds(StaleKeys(rows, kind, now), ids)
            && var rows' := Passes(rows, ids, kind, now, BATCH, n);
            && (SendingKeys(rows', kind) == {} <==> |SendingKeys(rows, kind)| <= n * 100)
            && (SendingKeys(rows', kind) == {} ==>
                  forall key :: key in rows ==>
                    key in rows' && rows'[key] == if key in SendingKeys(rows, kind)
                                                  then rows[key].(status := Uncertain) else rows[key])
  {
    var s := Run(acts);
    var now := s.now + STALE;
    RunStaysDated(acts);
    AllSendingAreStale(s, kind);
    PassesClear(s.rows, ids, kind, now, BATCH, n);
    var rows' := Passes(s.rows, ids, kind, now, BATCH, n);
    var before, after := StaleKeys(s.rows, kind, now), StaleKeys(rows', kind, now);
    assert after == SendingKeys(rows', kind) by {
      assert forall key :: key in rows' ==>
               rows'[key] == if key in before - after then s.rows[key].(status := Uncertain) else s.rows[key];
    }
  }

  // ---- What ends uncertainty ----

  /** The resolution the request is about to write, and the standing it writes by. */
  function Deciding(s: State, h: Handler): Option<(Resolution, Standing)> {
    match h.pc
    case Resolving(resolution) => if h.key.kind.DealQuote? then None else Some((resolution, StandingOf(s, h.actor)))
    case Settling(resolution, standing) => Some((resolution, standing))
    case _ => None
  }

  predicate Entitled(s: State, h: Handler, row: Row) {
    var d := Deciding(s, h);
    d.Some? && MayResolve(row, h.actor, d.value.1, d.value.0)
  }

  lemma StepEndsUncertainty(s: State, h: Handler, input: Input)
    requires h.key in s.rows && s.rows[h.key].status.Uncertain?
    ensures var row' := Advance(h, SceneOf(s, h), input).row;
            row'.Some? && (!row'.value.status.Uncertain? <==>
                             !input.fault.ErrorBefore? && (h.pc.Completing? || Entitled(s, h, s.rows[h.key])))
  {
  }

  /**
   * In every run an uncertain row stops being so by one of two steps and no other action: a resolution by somebody
   * who, when their standing was read, was entitled to it; or the late report of a request whose mail did arrive.
   */
  lemma UncertaintyEndsExactly(acts: seq<Action>, a: Action, key: Key)
    requires key in Run(acts).rows && Run(acts).rows[key].status.Uncertain?
    ensures key in Next(Run(acts), a).rows
    ensures var s := Run(acts);
            !Next(s, a).rows[key].status.Uncertain? <==>
              && a.Step? && a.id in s.handlers && s.handlers[a.id].key == key && !a.input.fault.ErrorBefore?
              && var h := s.handlers[a.id];
                 (h.pc.Completing? && Delivered(key, h.epoch) in s.log) || Entitled(s, h, s.rows[key])
  {
    var s := Run(acts);
    RunKeeps(acts);
    if a.Step? && a.id in s.handlers && s.handlers[a.id].key == key {
      StepEndsUncertainty(s, s.handlers[a.id], a.input);
      assert HandlerOk(s.log, s.rows, s.handlers[a.id]);
    }
  }

  function ResolvedTo(resolution: Resolution): Status {
    match resolution
    case ConfirmedSent => Accepted
    case Retry => Prepared
    case NotSent => Failed
  }

  function Resolver(key: Key, user: nat, resolution: Resolution): Handler {
    var nothing := Envelope("", "", "", "", "", "", "", "", []);
    Handler(key, user, 0, Customer, nothing, false, Resolving(resolution), 0, "", Claimed(key.kind, false, nothing), 0)
  }

  /** A user's request to resolve, up to its write; for a quote its standing is read in a step of its own. */
  function Asking(id: nat, key: Key, user: nat, resolution: Resolution, input: Input): seq<Action> {
    var write := [Step(id, input)];
    [Begin(id, Resolver(key, user, resolution))] + if key.kind.DealQuote? then [Step(id, CLEAN)] + write else write
  }

  lemma WriteDecides(s: State, id: nat, input: Input)
    requires id in s.handlers && s.handlers[id].key in s.rows && s.rows[s.handlers[id].key].status.Uncertain?
    requires Deciding(s, s.handlers[id]).Some? && !input.fault.ErrorBefore?
    ensures var key, s' := s.handlers[id].key, Next(s, Step(id, input));
            if Entitled(s, s.handlers[id], s.rows[key])
            then key in s'.rows && s'.rows[key].status == ResolvedTo(Deciding(s, s.handlers[id]).value.0)
            else s'.rows == s.rows && s'.log == s.log
  {
  }

  lemma ReadingLeavesRows(s: State, id: nat, input: Input)
    requires id in s.handlers && s.handlers[id].pc.Resolving? && s.handlers[id].key.kind.DealQuote?
    ensures var s' := Next(s, Step(id, input));
            && s'.rows == s.rows && s'.log == s.log && s'.standings == s.standings
            && s'.handlers == s.handlers[id := Advance(s.handlers[id], SceneOf(s, s.handlers[id]), input).handler]
  {
  }

  /** The request once it has been made, and for a quote has read its user's standing. */
  ghost function Asked(s: State, id: nat, key: Key, user: nat, resolution: Resolution): State {
    var begun := Next(s, Begin(id, Resolver(key, user, resolution)));
    if key.kind.DealQuote? then Next(begun, Step(id, CLEAN)) else begun
  }

  lemma AskingRuns(s: State, id: nat, key: Key, user: nat, resolution: Resolution, input: Input)
    ensures RunFrom(s, Asking(id, key, user, resolution, input))
         == Next(Asked(s, id, key, user, resolution), Step(id, input))
  {
    var b, read, write := Begin(id, Resolver(key, user, resolution)), Step(id, CLEAN), Step(id, input);
    var s1 := Next(s, b);
    RunOne(s, b, key);
    if key.kind.DealQuote? {
      RunOne(s1, read, key);
      RunOne(Next(s1, read), write, key);
      RunFromAppend(s1, [read], [write], key);
      RunFromAppend(s, [b], [read] + [write], key);
    } else {
      RunOne(s1, write, key);
      RunFromAppend(s, [b], [write], key);
    }
  }

  /** A request as it stands before its write: about to decide, or refused already. */
  ghost predicate ReadyToWrite(s: State, id: nat, key: Key, user: nat, resolution: Resolution, standing: Standing) {
    && id in s.handlers && s.handlers[id].key == key && s.handlers[id].actor == user
    && if key.kind.DealQuote? && standing.Inactive? then s.handlers[id].pc.Finished?
       else Deciding(s, s.handlers[id]) == Some((resolution, standing))
  }

  lemma AskedFacts(s: State, id: nat, key: Key, user: nat, resolution: Resolution)
    requires key in s.rows && id !in s.handlers
    ensures var s' := Asked(s, id, key, user, resolution);
            && s'.rows == s.rows && s'.log == s.log && s'.standings == s.standings
            && ReadyToWrite(s', id, key, user, resolution, StandingOf(s, user))
  {
    var s1 := Next(s, Begin(id, Resolver(key, user, resolution)));
    if key.kind.DealQuote? {
      ReadingLeavesRows(s1, id, CLEAN);
    }
  }

  lemma ReadyWrites(
    s: State, id: nat, key: Key, user: nat, resolution: Resolution, standing: Standing, input: Input)
    requires ReadyToWrite(s, id, key, user, resolution, standing) && !input.fault.ErrorBefore?
    requires key in s.rows && s.rows[key].status.Uncertain? && s.rows[key].kind == key.kind
    ensures var s' := Next(s, Step(id, input));
            if MayResolve(s.rows[key], user, standing, resolution)
            then key in s'.rows && s'.rows[key].status == ResolvedTo(resolution)
            else s'.rows == s.rows && s'.log == s.log
  {
    if !(key.kind.DealQuote? && standing.Inactive?) {
      WriteDecides(s, id, input);
    }
  }

  /**
   * For every user and every resolution: when that user asks for it, and nothing comes in between, the row is
   * settled as asked if the user is entitled to it; otherwise nothing changes.
   */
  lemma ResolutionDecides(s: State, key: Key, user: nat, resolution: Resolution, id: nat, input: Input)
    requires key in s.rows && s.rows[key].status.Uncertain? && s.rows[key].kind == key.kind
    requires id !in s.handlers && !input.fault.ErrorBefore?
    ensures var s' := RunFrom(s, Asking(id, key, user, resolution, input));
            if MayResolve(s.rows[key], user, StandingOf(s, user), resolution)
            then key in s'.rows && s'.rows[key].status == ResolvedTo(resolution)
            else s'.rows == s.rows && s'.log == s.log
  {
    AskingRuns(s, id, key, user, resolution, input);
    AskedFacts(s, id, key, user, resolution);
    ReadyWrites(Asked(s, id, key, user, resolution), id, key, user, resolution, StandingOf(s, user), input);
  }
}
