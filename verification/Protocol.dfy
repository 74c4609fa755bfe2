/**
 * Many requests working on many deliveries at once: any interleaving, a crash between any two steps, any store
 * call failing before or after its commit, plus the recovery pass and changes of membership.
 */
module Protocol {
  import opened Basics
  import opened Text
  import opened DeliveryStore
  import opened Senders

  /** An idempotency key belongs to a store and to the user who sent it. */
  datatype Key = Key(kind: Kind, actor: nat, hash: nat)

  datatype Check = LoadAccount | MatchSender | CheckSuppression

  /** What a request holds after a claim: a snapshot of the row, and whether it must ask the suppression list. */
  datatype Claimed = Claimed(kind: Kind, suppress: bool, envelope: Envelope)

  datatype Pc =
    | Replaying
    | Preparing
    | Resolving(resolution: Resolution)
    | Settling(resolution: Resolution, standing: Standing)
    | Claiming
    | Checking(todo: seq<Check>)
    | InFlight
    | Completing
    | Failing(uncertain: bool)
    | Finished

  datatype Handler = Handler(
    key: Key, actor: nat, request: nat, purpose: Purpose, draft: Envelope,
    suppressions: bool, pc: Pc, epoch: nat, from: string, claim: Claimed, claimTime: int)

  /** The history of effects. An epoch of a key is the number of retries recorded for it so far. */
  datatype Event =
    | Inserted(key: Key, envelope: Envelope)
    | Retried(key: Key)
    | Confirmed(key: Key)
    | DeclaredNotSent(key: Key)
    | ClaimTaken(key: Key, epoch: nat, claim: Claimed)
    | SenderMatched(key: Key, epoch: nat, from: string)
    | SuppressionCleared(key: Key, epoch: nat)
    | Called(key: Key, epoch: nat, message: Message)
    | Rejected(key: Key, epoch: nat)
    | Delivered(key: Key, epoch: nat)

  /** An account being disabled: the serializable transaction sees the rows as they were when it began. */
  datatype Disabling = Disabling(user: nat, standing: Standing, rows: map<Key, Row>, began: int)

  datatype State = State(
    rows: map<Key, Row>, handlers: map<nat, Handler>, standings: map<nat, Standing>,
    disablings: map<nat, Disabling>, log: seq<Event>, now: int)

  /** The answers a step may receive; each step reads only its own. */
  datatype Input = Input(
    fault: Fault, prepareRefused: bool, verdict: Verdict, account: Option<string>,
    suppressed: Option<bool>, outcome: Outcome, delivered: bool)

  datatype Action =
    | Begin(id: nat, handler: Handler)
    | Step(id: nat, input: Input)
    | Crash(id: nat, delivered: bool)
    | Arrive(key: Key, epoch: nat, message: Message)
    | RecoverPass(keys: set<Key>)
    | StartDisable(id: nat, user: nat)
    | Disable(id: nat)
    | Appoint(user: nat, standing: Standing)
    | Tick(seconds: nat)

  const INITIAL := State(map[], map[], map[], map[], [], 0)

  function Epoch(log: seq<Event>, key: Key): nat {
    multiset(log)[Retried(key)]
  }

  function StandingOf(s: State, user: nat): Standing {
    if user in s.standings then s.standings[user] else Inactive
  }

  /** The order in which each sender asks its questions. */
  function Checks(kind: Kind, suppress: bool): seq<Check> {
    var ask := if suppress then [CheckSuppression] else [];
    match kind
    case RecordEmail => [LoadAccount, MatchSender] + ask
    case DealQuote => ask + [LoadAccount, MatchSender]
    case ThreadReply => [LoadAccount] + ask + [MatchSender]
  }

  function Suppresses(h: Handler, row: Row): bool {
    h.suppressions && (row.kind.RecordEmail? ==> row.purpose.Customer?)
  }

  function Logged(log: seq<Event>, event: Option<Event>): seq<Event> {
    if event.Some? then log + [event.value] else log
  }

  datatype Move = Move(handler: Handler, row: Option<Row>, event: Option<Event>)

  function ReplayStep(h: Handler, row: Option<Row>, input: Input): Move {
    if !input.fault.Clean? then Move(h.(pc := Finished), row, None)
    else match row
      case None => Move(h.(pc := Preparing), row, None)
      case Some(r) =>
        if r.request == h.request && (r.status.Prepared? || r.status.Sending?) then Move(h.(pc := Claiming), row, None)
        else Move(h.(pc := Finished), row, None)
  }

  /** How each store cleans what it is given; a quote's text is the finished one, its recipient the quote's own. */
  function Normalized(kind: Kind, e: Envelope): Envelope {
    var sender, recipient := ToLower(TrimSpace(e.sender)), ToLower(TrimSpace(e.recipient));
    match kind
    case RecordEmail =>
      e.(sender := sender, recipient := recipient, subject := TrimSpace(e.subject), textBody := TrimSpace(e.textBody),
         htmlBody := TrimSpace(e.htmlBody), unsubscribeUrl := TrimSpace(e.unsubscribeUrl))
    case DealQuote => e.(sender := sender, subject := TrimSpace(e.subject))
    case ThreadReply => e.(sender := sender, recipient := recipient, textBody := TrimSpace(e.textBody))
  }

  function PrepareStep(h: Handler, row: Option<Row>, standing: Standing, input: Input): Move {
    var next := if input.fault.Clean? then Claiming else Finished;
    match row
    case Some(r) =>
      Move(h.(pc := if r.request == h.request then next else Finished), row, None)
    case None =>
      if input.prepareRefused || !Writes(standing) || input.fault.ErrorBefore? then Move(h.(pc := Finished), row, None)
      else
        var envelope := Normalized(h.key.kind, h.draft);
        Move(h.(pc := next), Some(Row(h.key.kind, Prepared, h.purpose, h.key.actor, h.request, envelope, None)),
             Some(Inserted(h.key, envelope)))
  }

  function ResolutionEvent(key: Key, resolution: Resolution): Event {
    match resolution
    case ConfirmedSent => Confirmed(key)
    case Retry => Retried(key)
    case NotSent => DeclaredNotSent(key)
  }

  /** The quote store reads the resolver's standing without a lock, and writes by it some time later. */
  function ReadStandingStep(h: Handler, row: Row, resolution: Resolution, standing: Standing, input: Input): Move {
    Move(h.(pc := if standing.Inactive? || !input.fault.Clean? then Finished else Settling(resolution, standing)),
         Some(row), None)
  }

  function ResolveStep(h: Handler, row: Row, resolution: Resolution, standing: Standing, input: Input): Move {
    var spec := ResolveSpec(row, h.actor, standing, resolution);
    var (row', answer) := Faulted(input.fault, row, spec);
    Move(h.(pc := if answer.Got? && answer.shouldSend then Claiming else Finished), Some(row'),
         if spec.1.Got? && !input.fault.ErrorBefore? then Some(ResolutionEvent(h.key, resolution)) else None)
  }

  function ClaimStep(h: Handler, row: Row, epoch: nat, standing: Standing, now: int, input: Input): Move {
    var spec := ClaimSpec(row, h.actor, standing, input.verdict, now);
    var (row', answer) := Faulted(input.fault, row, spec);
    var claim := Claimed(row.kind, Suppresses(h, row), row.envelope);
    var taken := spec.1.Got? && spec.1.shouldSend && !input.fault.ErrorBefore?;
    Move(if answer.Got? && answer.shouldSend
           then h.(pc := Checking(Checks(row.kind, claim.suppress)), epoch := epoch, claim := claim, claimTime := now)
           else h.(pc := Finished),
         Some(row'), if taken then Some(ClaimTaken(h.key, epoch, claim)) else None)
  }

  function CheckStep(h: Handler, row: Option<Row>, input: Input): Move
    requires h.pc.Checking?
  {
    var todo := h.pc.todo;
    if todo == [] then
      Move(h.(pc := InFlight), row, Some(Called(h.key, h.epoch, Compose(h.claim.kind, h.claim.envelope))))
    else match todo[0]
      case LoadAccount =>
        if input.account.Some? then Move(h.(pc := Checking(todo[1..]), from := input.account.value), row, None)
        else Move(h.(pc := Failing(false)), row, None)
      case MatchSender =>
        if SameMailbox(h.from, h.claim.envelope.sender)
        then Move(h.(pc := Checking(todo[1..])), row, Some(SenderMatched(h.key, h.epoch, h.from)))
        else Move(h.(pc := Failing(false)), row, None)
      case CheckSuppression =>
        if input.suppressed == Some(false)
        then Move(h.(pc := Checking(todo[1..])), row, Some(SuppressionCleared(h.key, h.epoch)))
        else Move(h.(pc := Failing(false)), row, None)
  }

  function ProviderStep(h: Handler, row: Option<Row>, input: Input): Move {
    var arrived := Some(Delivered(h.key, h.epoch));
    match input.outcome
    case SendAccepted => Move(h.(pc := Completing), row, arrived)
    case SendRejected => Move(h.(pc := Failing(false)), row, Some(Rejected(h.key, h.epoch)))
    case SendAmbiguous => Move(h.(pc := Failing(true)), row, if input.delivered then arrived else None)
  }

  function CompleteStep(h: Handler, row: Row, input: Input): Move {
    var (row', answer) := Faulted(input.fault, row, CompleteSpec(row));
    Move(h.(pc := if answer.Got? then Finished else Failing(true)), Some(row'), None)
  }

  function FailStep(h: Handler, row: Row, uncertain: bool, input: Input): Move {
    Move(h.(pc := Finished), Some(Faulted(input.fault, row, FailSpec(row, uncertain)).0), None)
  }

  /** What a step finds when it is taken: the row of its key, the key's epoch, its user's standing and the time. */
  datatype Scene = Scene(row: Option<Row>, epoch: nat, standing: Standing, now: int)

  /** One step of one request. */
  function Advance(h: Handler, at: Scene, input: Input): Move {
    var gone := Move(h.(pc := Finished), at.row, None);
    match h.pc
    case Replaying => ReplayStep(h, at.row, input)
    case Preparing => PrepareStep(h, at.row, at.standing, input)
    case Resolving(resolution) =>
      if at.row.None? then gone
      else if h.key.kind.DealQuote? then ReadStandingStep(h, at.row.value, resolution, at.standing, input)
      else ResolveStep(h, at.row.value, resolution, at.standing, input)
    case Settling(resolution, standing) =>
      if at.row.None? then gone else ResolveStep(h, at.row.value, resolution, standing, input)
    case Claiming => if at.row.None? then gone else ClaimStep(h, at.row.value, at.epoch, at.standing, at.now, input)
    case Checking(_) => CheckStep(h, at.row, input)
    case InFlight => ProviderStep(h, at.row, input)
    case Completing => if at.row.None? then gone else CompleteStep(h, at.row.value, input)
    case Failing(uncertain) => if at.row.None? then gone else FailStep(h, at.row.value, uncertain, input)
    case Finished => gone
  }

  function RowOf(rows: map<Key, Row>, key: Key): Option<Row> {
    if key in rows then Some(rows[key]) else None
  }

  function SceneOf(s: State, h: Handler): Scene {
    Scene(RowOf(s.rows, h.key), Epoch(s.log, h.key), StandingOf(s, h.actor), s.now)
  }

  /** The rows after a move of a request working on `key`. */
  function Stored(rows: map<Key, Row>, key: Key, row: Option<Row>): map<Key, Row> {
    if row.Some? then rows[key := row.value] else rows
  }

  /** The rows after a recovery pass that picked `keys`. */
  function Recovered(rows: map<Key, Row>, keys: set<Key>, now: int): map<Key, Row> {
    map key | key in rows :: if key in keys then RecoverSpec(rows[key], now) else rows[key]
  }

  /** The sender's rows that the disabling of an account will write to: those it saw claimable or being sent. */
  predicate Affected(d: Disabling, key: Key) {
    key in d.rows && key.actor == d.user && (d.rows[key].status.Prepared? || d.rows[key].status.Sending?)
  }

  /** The transaction fails if a row it is to write, or the membership, has changed since it began. */
  predicate TakesEffect(s: State, d: Disabling) {
    && !d.standing.Inactive? && StandingOf(s, d.user) == d.standing
    && forall key :: key in d.rows && Affected(d, key) ==> key in s.rows && s.rows[key] == d.rows[key]
  }

  /** The rows after a user's account has been disabled. */
  function Quiesced(rows: map<Key, Row>, d: Disabling): map<Key, Row> {
    map key | key in rows :: if Affected(d, key) then QuiesceSpec(rows[key], d.began) else rows[key]
  }

  function Disabled(s: State, d: Disabling): State {
    s.(rows := Quiesced(s.rows, d), standings := s.standings[d.user := Inactive])
  }

  /** Mail may still arrive for a call that is over and was not definitely rejected. */
  predicate MayArrive(s: State, key: Key, epoch: nat, message: Message) {
    && Called(key, epoch, message) in s.log && Rejected(key, epoch) !in s.log
    && forall id :: id in s.handlers && s.handlers[id].pc.InFlight? ==>
         !(s.handlers[id].key == key && s.handlers[id].epoch == epoch)
  }

  function CrashEvent(h: Handler, delivered: bool): Option<Event> {
    if h.pc.InFlight? && delivered then Some(Delivered(h.key, h.epoch)) else None
  }

  function Next(s: State, a: Action): State {
    match a
    case Begin(id, h) =>
      if id !in s.handlers && (h.pc.Resolving? || (h.pc.Replaying? && h.actor == h.key.actor))
      then s.(handlers := s.handlers[id := h]) else s
    case Step(id, input) =>
      if id !in s.handlers then s
      else
        var h := s.handlers[id];
        var m := Advance(h, SceneOf(s, h), input);
        s.(rows := Stored(s.rows, h.key, m.row), handlers := s.handlers[id := m.handler], log := Logged(s.log, m.event))
    case Crash(id, delivered) =>
      if id !in s.handlers then s
      else
        var h := s.handlers[id];
        s.(handlers := s.handlers[id := h.(pc := Finished)], log := Logged(s.log, CrashEvent(h, delivered)))
    case RecoverPass(keys) => s.(rows := Recovered(s.rows, keys, s.now))
    case Arrive(key, epoch, message) =>
      if MayArrive(s, key, epoch, message) then s.(log := s.log + [Delivered(key, epoch)]) else s
    case StartDisable(id, user) =>
      s.(disablings := s.disablings[id := Disabling(user, StandingOf(s, user), s.rows, s.now)])
    case Disable(id) =>
      if id !in s.disablings then s
      else
        var d := s.disablings[id];
        var s' := s.(disablings := s.disablings - {id});
        if TakesEffect(s, d) then Disabled(s', d) else s'
    case Appoint(user, standing) =>
      if standing.Inactive? then s else s.(standings := s.standings[user := standing])
    case Tick(seconds) => s.(now := s.now + seconds)
  }

  function RunFrom(s: State, acts: seq<Action>): State {
    if acts == [] then s else Next(RunFrom(s, acts[..|acts| - 1]), acts[|acts| - 1])
  }

  /** The state after any sequence of actions from an empty system. */
  function Run(acts: seq<Action>): State {
    RunFrom(INITIAL, acts)
  }

  /** The epochs of the provider calls made for a key, in order. */
  function CallsOf(log: seq<Event>, key: Key): seq<nat> {
    if log == [] then []
    else
      var e := log[|log| - 1];
      CallsOf(log[..|log| - 1], key) + if e.Called? && e.key == key then [e.epoch] else []
  }
}
