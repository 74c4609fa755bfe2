/** What is left of a sender's deliveries once their account has been disabled, and what can still slip past. */
module ProtocolDisable {
  import opened Basics
  import opened Text
  import opened DeliveryStore
  import opened Senders
  import opened Protocol
  import opened ProtocolSafety
  import opened ProtocolRetry
  import opened ProtocolRuns
  import opened ProtocolProgress

  // ---- Who reads what ----

  /** Only the sender prepares, and only quotes are settled by a standing read earlier, an active one. */
  predicate Own(h: Handler) {
    && (h.pc.Replaying? || h.pc.Preparing? ==> h.actor == h.key.actor)
    && (h.pc.Settling? ==> h.key.kind.DealQuote? && !h.pc.standing.Inactive?)
  }

  ghost predicate AllOwn(s: State) {
    forall id :: id in s.handlers ==> Own(s.handlers[id])
  }

  lemma MoveStaysOwn(h: Handler, at: Scene, input: Input)
    requires Own(h)
    ensures Own(Advance(h, at, input).handler)
  {
  }

  lemma NextStaysOwn(s: State, a: Action)
    requires AllOwn(s)
    ensures AllOwn(Next(s, a))
  {
    if a.Step? && a.id in s.handlers {
      MoveStaysOwn(s.handlers[a.id], SceneOf(s, s.handlers[a.id]), a.input);
    }
  }

  lemma {:induction false} RunStaysOwn(acts: seq<Action>)
    ensures AllOwn(Run(acts))
  {
    if acts != [] {
      RunStaysOwn(acts[..|acts| - 1]);
      NextStaysOwn(Run(acts[..|acts| - 1]), acts[|acts| - 1]);
    }
  }

  predicate Appoints(a: Action, user: nat) {
    a.Appoint? && a.user == user
  }

  predicate NotAppointed(acts: seq<Action>, user: nat) {
    forall i :: 0 <= i < |acts| ==> !Appoints(acts[i], user)
  }

  lemma NextStaysInactive(s: State, a: Action, user: nat)
    requires StandingOf(s, user).Inactive? && !Appoints(a, user)
    ensures StandingOf(Next(s, a), user).Inactive?
  {
  }

  // ---- When a disabled sender's deliveries rest ----

  /** Nothing of the user can be claimed, or is being sent. */
  ghost predicate Rest(s: State, user: nat) {
    forall key :: key in s.rows && key.actor == user ==> !s.rows[key].status.Prepared? && !s.rows[key].status.Sending?
  }

  /** A request of the user to retry, by a standing it has already read. */
  predicate HoldsRetry(h: Handler, user: nat) {
    h.pc.Settling? && h.pc.resolution.Retry? && h.actor == user && h.key.actor == user
  }

  /** Every such request would come too late: its delivery is over. */
  ghost predicate NobodyReopens(s: State, user: nat) {
    forall id :: id in s.handlers && HoldsRetry(s.handlers[id], user) && s.handlers[id].key in s.rows ==>
      Final(s.rows[s.handlers[id].key].status)
  }

  /** All that can be claimed or is being sent when the account is disabled was there when the disabling began. */
  ghost predicate NothingMissed(s: State, d: Disabling) {
    forall key :: key in s.rows && key.actor == d.user && (s.rows[key].status.Prepared? || s.rows[key].status.Sending?)
      ==> Affected(d, key)
  }

  ghost predicate Resting(s: State, user: nat) {
    && Inv(s) && AllOwn(s) && StandingOf(s, user).Inactive?
    && Rest(s, user) && NobodyReopens(s, user)
  }

  lemma MoveRests(h: Handler, at: Scene, input: Input, user: nat)
    requires Own(h) && h.key.actor == user && (h.actor == user ==> at.standing.Inactive?)
    requires at.row.Some? ==>
               && at.row.value.actor == user && at.row.value.kind == h.key.kind
               && !at.row.value.status.Prepared? && !at.row.value.status.Sending?
               && (HoldsRetry(h, user) ==> Final(at.row.value.status))
    ensures var m := Advance(h, at, input);
            && (m.row.Some? ==> at.row.Some? && !m.row.value.status.Prepared? && !m.row.value.status.Sending?)
            && !HoldsRetry(m.handler, user)
  {
  }

  lemma OwnMoveRests(s: State, id: nat, input: Input, user: nat)
    requires Resting(s, user) && id in s.handlers && s.handlers[id].key.actor == user
    ensures var h := s.handlers[id];
            var m := Advance(h, SceneOf(s, h), input);
            && (m.row.Some? ==> h.key in s.rows && !m.row.value.status.Prepared? && !m.row.value.status.Sending?)
            && !HoldsRetry(m.handler, user)
  {
    var h := s.handlers[id];
    assert h.key in s.rows ==> RowOk(s.log, h.key, s.rows[h.key]);
    MoveRests(h, SceneOf(s, h), input, user);
  }

  lemma StepStaysResting(s: State, id: nat, input: Input, user: nat)
    requires Resting(s, user) && id in s.handlers
    ensures var s' := Next(s, Step(id, input)); Rest(s', user) && NobodyReopens(s', user)
  {
    var h := s.handlers[id];
    MoveIsLocal(h, SceneOf(s, h), input);
    if h.key.actor == user {
      OwnMoveRests(s, id, input, user);
    }
  }

  lemma DisableStaysResting(s: State, id: nat, user: nat)
    requires Rest(s, user) && NobodyReopens(s, user) && StandingOf(s, user).Inactive?
    ensures var s' := Next(s, Disable(id)); Rest(s', user) && NobodyReopens(s', user)
  {
  }

  lemma OtherStaysResting(s: State, a: Action, user: nat)
    requires Rest(s, user) && NobodyReopens(s, user) && !a.Step? && !a.Disable?
    ensures Rest(Next(s, a), user) && NobodyReopens(Next(s, a), user)
  {
  }

  lemma NextStaysResting(s: State, a: Action, user: nat)
    requires Resting(s, user) && !Appoints(a, user)
    ensures Resting(Next(s, a), user)
  {
    NextKeeps(s, a);
    NextStaysOwn(s, a);
    NextStaysInactive(s, a, user);
    match a {
      case Step(id, input) =>
        if id in s.handlers {
          StepStaysResting(s, id, input, user);
        }
      case Disable(id) => DisableStaysResting(s, id, user);
      case _ => OtherStaysResting(s, a, user);
    }
  }

  lemma {:induction false} RunsStayResting(s: State, more: seq<Action>, user: nat)
    requires Resting(s, user) && NotAppointed(more, user)
    ensures Resting(RunFrom(s, more), user)
  {
    if more != [] {
      var n := |more| - 1;
      assert !Appoints(more[n], user);
      assert forall i :: 0 <= i < n ==> more[..n][i] == more[i];
      RunsStayResting(s, more[..n], user);
      NextStaysResting(RunFrom(s, more[..n]), more[n], user);
    }
  }

  /** A request that holds a standing read before can still make an uncertain quote claimable. */
  lemma HeldRetryReopens(s: State, id: nat, user: nat)
    requires Inv(s) && AllOwn(s) && id in s.handlers && HoldsRetry(s.handlers[id], user)
    requires s.handlers[id].key in s.rows && s.rows[s.handlers[id].key].status.Uncertain?
    ensures !Rest(Next(s, Step(id, CLEAN)), user)
  {
    var h := s.handlers[id];
    assert RowOk(s.log, h.key, s.rows[h.key]) && Own(h);
    assert Next(s, Step(id, CLEAN)).rows[h.key].status.Prepared?;
  }

  lemma DisabledRests(s: State, id: nat)
    requires Inv(s) && AllOwn(s) && id in s.disablings && TakesEffect(s, s.disablings[id])
    requires NothingMissed(s, s.disablings[id]) && NobodyReopens(Next(s, Disable(id)), s.disablings[id].user)
    ensures Resting(Next(s, Disable(id)), s.disablings[id].user)
  {
    NextKeeps(s, Disable(id));
  }

  lemma MissedDoesNotRest(s: State, id: nat)
    requires id in s.disablings && TakesEffect(s, s.disablings[id]) && !NothingMissed(s, s.disablings[id])
    ensures !Rest(Next(s, Disable(id)), s.disablings[id].user)
  {
    var d := s.disablings[id];
    var key :| key in s.rows && key.actor == d.user && (s.rows[key].status.Prepared? || s.rows[key].status.Sending?)
               && !Affected(d, key);
    assert Next(s, Disable(id)).rows[key] == s.rows[key];
  }

  lemma ReopenedDoesNotRest(s: State, user: nat) returns (more: seq<Action>)
    requires Inv(s) && AllOwn(s) && !NobodyReopens(s, user)
    ensures NotAppointed(more, user) && !Rest(RunFrom(s, more), user)
  {
    var id :| id in s.handlers && HoldsRetry(s.handlers[id], user) && s.handlers[id].key in s.rows
              && !Final(s.rows[s.handlers[id].key].status);
    if s.rows[s.handlers[id].key].status.Uncertain? {
      HeldRetryReopens(s, id, user);
      RunOne(s, Step(id, CLEAN), s.handlers[id].key);
      more := [Step(id, CLEAN)];
    } else {
      more := [];
    }
  }

  /** The user's deliveries rest for as long as nobody appoints the user again. */
  ghost predicate RestsOn(s: State, user: nat) {
    forall more :: NotAppointed(more, user) ==> Rest(RunFrom(s, more), user)
  }

  lemma RestingRestsOn(s: State, user: nat)
    requires Resting(s, user)
    ensures RestsOn(s, user)
  {
    forall more | NotAppointed(more, user) ensures Rest(RunFrom(s, more), user) {
      RunsStayResting(s, more, user);
    }
  }

  lemma RestlessStays(s: State, user: nat)
    requires Inv(s) && AllOwn(s) && (!Rest(s, user) || !NobodyReopens(s, user))
    ensures !RestsOn(s, user)
  {
    if Rest(s, user) {
      var more := ReopenedDoesNotRest(s, user);
    } else {
      assert RunFrom(s, []) == s && NotAppointed([], user);
    }
  }

  /**
   * When an account is disabled, the user's deliveries rest for as long as nobody appoints the user again, if and
   * only if nothing became claimable behind the back of the transaction that disables it, and no request of the user
   * holds a standing it read earlier by which it may still reopen an uncertain quote.
   */
  lemma RestsExactly(acts: seq<Action>, id: nat)
    requires id in Run(acts).disablings && TakesEffect(Run(acts), Run(acts).disablings[id])
    ensures var s, d := Run(acts), Run(acts).disablings[id];
            var s' := Next(s, Disable(id));
            NothingMissed(s, d) && NobodyReopens(s', d.user) <==> RestsOn(s', d.user)
  {
    var s := Run(acts);
    var user := s.disablings[id].user;
    RunKeeps(acts);
    RunStaysOwn(acts);
    if NothingMissed(s, s.disablings[id]) && NobodyReopens(Next(s, Disable(id)), user) {
      DisabledRests(s, id);
      RestingRestsOn(Next(s, Disable(id)), user);
    } else {
      NextKeeps(s, Disable(id));
      NextStaysOwn(s, Disable(id));
      if !NothingMissed(s, s.disablings[id]) {
        MissedDoesNotRest(s, id);
      }
      RestlessStays(Next(s, Disable(id)), user);
    }
  }

  /** Undisturbed, disabling an account fails what could still be claimed and leaves open what was being sent. */
  lemma DisablingSettles(s: State, id: nat, user: nat)
    requires !StandingOf(s, user).Inactive?
    ensures var s' := Next(Next(s, StartDisable(id, user)), Disable(id));
            && s'.standings == s.standings[user := Inactive] && s'.log == s.log && s'.handlers == s.handlers
            && s'.rows.Keys == s.rows.Keys
            && (forall key :: key in s.rows ==>
                  if key.actor != user || !(s.rows[key].status.Prepared? || s.rows[key].status.Sending?)
                  then s'.rows[key] == s.rows[key]
                  else s'.rows[key].status == if s.rows[key].status.Prepared? then Failed else Uncertain)
  {
    var d := Disabling(user, StandingOf(s, user), s.rows, s.now);
    assert Next(s, StartDisable(id, user)).disablings[id] == d;
    assert TakesEffect(Next(s, StartDisable(id, user)), d);
  }

  /** If the membership, or a delivery it was to settle, has changed in between, disabling does nothing. */
  lemma ConflictUndoes(s: State, id: nat, key: Key)
    requires id in s.disablings
    requires var d := s.disablings[id];
             || StandingOf(s, d.user) != d.standing
             || (key in d.rows && key.actor == d.user
                 && (d.rows[key].status.Prepared? || d.rows[key].status.Sending?)
                 && !(key in s.rows && s.rows[key] == d.rows[key]))
    ensures Next(s, Disable(id)) == s.(disablings := s.disablings - {id})
  {
    if key in s.disablings[id].rows {
      assert Affected(s.disablings[id], key) ==> key in s.disablings[id].rows;
    }
  }

  // ---- Who settles what is left ----

  /** No request of the user on a delivery of theirs holds a standing it has read. */
  ghost predicate NobodyHolds(s: State, user: nat) {
    forall id :: id in s.handlers && s.handlers[id].pc.Settling? && s.handlers[id].key.actor == user ==>
      s.handlers[id].actor != user
  }

  lemma StepStaysUnheld(s: State, id: nat, input: Input, user: nat)
    requires NobodyHolds(s, user) && StandingOf(s, user).Inactive? && id in s.handlers
    ensures NobodyHolds(Next(s, Step(id, input)), user)
  {
    var h := s.handlers[id];
    assert Advance(h, SceneOf(s, h), input).handler.pc.Settling? ==>
             h.pc.Resolving? && !StandingOf(s, h.actor).Inactive?;
    MoveIsLocal(h, SceneOf(s, h), input);
  }

  lemma NextStaysUnheld(s: State, a: Action, user: nat)
    requires NobodyHolds(s, user) && StandingOf(s, user).Inactive? && !Appoints(a, user)
    ensures NobodyHolds(Next(s, a), user) && StandingOf(Next(s, a), user).Inactive?
  {
    NextStaysInactive(s, a, user);
    if a.Step? && a.id in s.handlers {
      StepStaysUnheld(s, a.id, a.input, user);
    }
  }

  lemma {:induction false} RunsStayUnheld(s: State, more: seq<Action>, user: nat)
    requires NobodyHolds(s, user) && StandingOf(s, user).Inactive? && NotAppointed(more, user)
    ensures NobodyHolds(RunFrom(s, more), user) && StandingOf(RunFrom(s, more), user).Inactive?
  {
    if more != [] {
      var n := |more| - 1;
      assert !Appoints(more[n], user);
      assert forall i :: 0 <= i < n ==> more[..n][i] == more[i];
      RunsStayUnheld(s, more[..n], user);
      NextStaysUnheld(RunFrom(s, more[..n]), more[n], user);
    }
  }

  /** The request is of another user, read as an administrator, and asks for anything but a retry. */
  predicate AdminDecides(s: State, h: Handler) {
    var d := Deciding(s, h);
    d.Some? && h.actor != h.key.actor && d.value.1.Admin? && !d.value.0.Retry?
  }

  lemma OnlyAdminsAreEntitled(s: State, h: Handler, row: Row)
    requires row.actor == h.key.actor && StandingOf(s, h.key.actor).Inactive?
    requires h.pc.Settling? ==> h.actor != h.key.actor
    ensures Entitled(s, h, row) <==> AdminDecides(s, h)
  {
  }

  /**
   * While a sender is disabled, and held no standing from before, an uncertain delivery of theirs is settled by
   * exactly two things: another user, an administrator when that user's standing was read, deciding anything but a
   * retry; or the late report of a request whose mail did arrive.
   */
  lemma OnlyAdminsSettle(acts: seq<Action>, more: seq<Action>, a: Action, key: Key)
    requires StandingOf(Run(acts), key.actor).Inactive? && NobodyHolds(Run(acts), key.actor)
    requires NotAppointed(more, key.actor)
    requires key in Run(acts + more).rows && Run(acts + more).rows[key].status.Uncertain?
    ensures key in Next(Run(acts + more), a).rows
    ensures var s := Run(acts + more);
            !Next(s, a).rows[key].status.Uncertain? <==>
              && a.Step? && a.id in s.handlers && s.handlers[a.id].key == key && !a.input.fault.ErrorBefore?
              && var h := s.handlers[a.id];
                 (h.pc.Completing? && Delivered(key, h.epoch) in s.log) || AdminDecides(s, h)
  {
    var s := Run(acts + more);
    RunFromAppend(INITIAL, acts, more, key);
    RunsStayUnheld(Run(acts), more, key.actor);
    RunKeeps(acts + more);
    assert RowOk(s.log, key, s.rows[key]);
    UncertaintyEndsExactly(acts + more, a, key);
    if a.Step? && a.id in s.handlers && s.handlers[a.id].key == key {
      OnlyAdminsAreEntitled(s, s.handlers[a.id], s.rows[key]);
    }
  }

  // ---- A quote that nobody can settle ----

  /** A claimable quote of a disabled sender stays what it is: no claim, resolution or disabling applies to it. */
  lemma StepLeavesQuote(s: State, a: Action, key: Key)
    requires key in s.rows && key.kind.DealQuote? && s.rows[key].kind.DealQuote? && s.rows[key].actor == key.actor
    requires s.rows[key].status.Prepared? && StandingOf(s, key.actor).Inactive? && !Appoints(a, key.actor)
    ensures key in Next(s, a).rows && Next(s, a).rows[key] == s.rows[key]
  {
  }

  lemma {:induction false} QuoteIsStuck(s: State, more: seq<Action>, key: Key)
    requires key in s.rows && key.kind.DealQuote? && s.rows[key].kind.DealQuote? && s.rows[key].actor == key.actor
    requires s.rows[key].status.Prepared? && StandingOf(s, key.actor).Inactive? && NotAppointed(more, key.actor)
    ensures var s' := RunFrom(s, more);
            key in s'.rows && s'.rows[key] == s.rows[key] && StandingOf(s', key.actor).Inactive?
  {
    if more != [] {
      var n := |more| - 1;
      assert !Appoints(more[n], key.actor);
      assert forall i :: 0 <= i < n ==> more[..n][i] == more[i];
      QuoteIsStuck(s, more[..n], key);
      StepLeavesQuote(RunFrom(s, more[..n]), more[n], key);
      NextStaysInactive(RunFrom(s, more[..n]), more[n], key.actor);
    }
  }

  const QUOTE := KeyFor(DealQuote)
  const LOST := HeldFor(DealQuote).(status := Uncertain)
  const DECIDED := RequestFor(DealQuote, Settling(Retry, Member))
  const DISABLED: map<nat, Standing> := map[7 := Inactive]

  lemma QuoteIsClaimed(s: State)
    requires s.rows == map[QUOTE := RowFor(DealQuote)] && s.standings == MEMBERS && s.now == 0
    requires s.handlers == map[0 := RequestFor(DealQuote, Claiming)]
    ensures var s' := Next(s, Step(0, CLEAN));
            && s'.rows == map[QUOTE := HeldFor(DealQuote)] && s'.standings == MEMBERS && s'.now == 0
            && s'.disablings == s.disablings && s'.handlers.Keys == {0}
  {
  }

  lemma StandingIsRead(s: State)
    requires s.rows == map[QUOTE := LOST] && s.standings == MEMBERS && s.handlers.Keys == {0}
    ensures var s' := Next(Next(s, Begin(1, RequestFor(DealQuote, Resolving(Retry)))), Step(1, CLEAN));
            && s'.rows == map[QUOTE := LOST] && s'.standings == MEMBERS
            && 1 in s'.handlers && s'.handlers[1] == DECIDED
  {
    var s1 := Next(s, Begin(1, RequestFor(DealQuote, Resolving(Retry))));
    var h := s1.handlers[1];
    assert Advance(h, SceneOf(s1, h), CLEAN) == Move(DECIDED, Some(LOST), None);
    assert map[QUOTE := LOST][QUOTE := LOST] == map[QUOTE := LOST];
  }

  lemma UncertainIsUnaffected(d: Disabling, rows: map<Key, Row>)
    requires d.rows == map[QUOTE := LOST]
    ensures (forall key :: !Affected(d, key)) && Quiesced(rows, d) == rows
  {
  }

  lemma DisabledAtOnce(s: State, user: nat)
    requires forall key :: !Affected(Disabling(user, StandingOf(s, user), s.rows, s.now), key)
    requires !StandingOf(s, user).Inactive?
    ensures var d := Disabling(user, StandingOf(s, user), s.rows, s.now);
            var s' := Next(Next(s, StartDisable(0, user)), Disable(0));
            && s'.rows == Quiesced(s.rows, d) && s'.standings == s.standings[user := Inactive]
            && s'.handlers == s.handlers
  {
    assert Next(s, StartDisable(0, user)).disablings[0] == Disabling(user, StandingOf(s, user), s.rows, s.now);
  }

  lemma AccountIsDisabled(s: State)
    requires s.rows == map[QUOTE := LOST] && s.standings == MEMBERS
    ensures var s' := Next(Next(s, StartDisable(0, 7)), Disable(0));
            s'.rows == map[QUOTE := LOST] && s'.standings == DISABLED && s'.handlers == s.handlers
  {
    UncertainIsUnaffected(Disabling(7, Member, s.rows, s.now), s.rows);
    DisabledAtOnce(s, 7);
  }

  lemma QuoteIsReopened(s: State)
    requires s.rows == map[QUOTE := LOST] && s.standings == DISABLED && 1 in s.handlers && s.handlers[1] == DECIDED
    ensures var s' := Next(s, Step(1, CLEAN));
            QUOTE in s'.rows && s'.rows[QUOTE] == RowFor(DealQuote) && s'.standings == DISABLED
  {
  }

  /** A retry that read its user's standing before the account was disabled reopens the quote afterwards. */
  lemma DisabledQuoteReopens() returns (acts: seq<Action>)
    ensures StandingOf(Run(acts), 7).Inactive? && QUOTE in Run(acts).rows && Run(acts).rows[QUOTE].status.Prepared?
    ensures forall more :: NotAppointed(more, 7) ==>
              QUOTE in RunFrom(Run(acts), more).rows && RunFrom(Run(acts), more).rows[QUOTE] == RowFor(DealQuote)
  {
    acts := PreparedRun(DealQuote);
    QuoteIsClaimed(Run(acts));
    acts := Extend(acts, Step(0, CLEAN), QUOTE);
    ClaimGoesStale(Run(acts), DealQuote);
    acts := Extend(acts, Tick(STALE), QUOTE);
    acts := Extend(acts, RecoverPass({QUOTE}), QUOTE);
    StandingIsRead(Run(acts));
    acts := Extend(acts, Begin(1, RequestFor(DealQuote, Resolving(Retry))), QUOTE);
    acts := Extend(acts, Step(1, CLEAN), QUOTE);
    AccountIsDisabled(Run(acts));
    acts := Extend(acts, StartDisable(0, 7), QUOTE);
    acts := Extend(acts, Disable(0), QUOTE);
    QuoteIsReopened(Run(acts));
    acts := Extend(acts, Step(1, CLEAN), QUOTE);
    forall more | NotAppointed(more, 7)
      ensures QUOTE in RunFrom(Run(acts), more).rows && RunFrom(Run(acts), more).rows[QUOTE] == RowFor(DealQuote)
    {
      QuoteIsStuck(Run(acts), more, QUOTE);
    }
  }

  // ---- A reply that is sent all the same ----

  const REPLY := KeyFor(ThreadReply)
  const HELD := HeldFor(ThreadReply)
  const SENDER := Normalized(ThreadReply, MAIL).sender

  /** The one reply, of a disabled sender, and the one request working on it. */
  ghost predicate Replies(s: State, row: Row, h: Handler) {
    s.rows == map[REPLY := row] && s.handlers == map[0 := h] && s.standings == DISABLED && s.now == 0
  }

  function Replier(todo: seq<Check>, from: string): Handler {
    RequestFor(ThreadReply, Checking(todo)).(
      from := from, claim := Claimed(ThreadReply, false, Normalized(ThreadReply, MAIL)))
  }

  ghost predicate NoCalls(log: seq<Event>, key: Key) {
    forall n, m :: Called(key, n, m) !in log
  }

  lemma UnseenReplyStays(s: State)
    requires 0 in s.disablings && s.disablings[0] == Disabling(7, Member, map[], 0)
    requires s.rows == map[REPLY := RowFor(ThreadReply)] && s.standings == MEMBERS && s.now == 0
    requires s.handlers == map[0 := RequestFor(ThreadReply, Claiming)]
    ensures var s' := Next(s, Disable(0));
            Replies(s', RowFor(ThreadReply), RequestFor(ThreadReply, Claiming)) && s'.log == s.log
  {
  }

  lemma ReplyIsClaimed(s: State)
    requires Replies(s, RowFor(ThreadReply), RequestFor(ThreadReply, Claiming)) && Epoch(s.log, REPLY) == 0
    ensures Replies(Next(s, Step(0, CLEAN)), HELD, Replier([LoadAccount, MatchSender], ""))
  {
    assert Checks(ThreadReply, false) == [LoadAccount, MatchSender];
    var h := s.handlers[0];
    assert Advance(h, SceneOf(s, h), CLEAN).handler == Replier([LoadAccount, MatchSender], "");
  }

  lemma ReplyIsChecked(s: State)
    requires Replies(s, HELD, Replier([LoadAccount, MatchSender], ""))
    ensures Replies(Next(s, Step(0, CLEAN.(account := Some(SENDER)))), HELD, Replier([MatchSender], SENDER))
  {
    assert [LoadAccount, MatchSender][1..] == [MatchSender];
  }

  lemma ReplySenderIsMatched(s: State)
    requires Replies(s, HELD, Replier([MatchSender], SENDER))
    ensures Replies(Next(s, Step(0, CLEAN)), HELD, Replier([], SENDER))
  {
    TrimLowerTrim(MAIL.sender);
    assert [MatchSender][1..] == [];
  }

  lemma ReplyIsCalled(s: State)
    requires Replies(s, HELD, Replier([], SENDER))
    ensures !NoCalls(Next(s, Step(0, CLEAN)).log, REPLY)
  {
    assert Called(REPLY, 0, Compose(ThreadReply, Normalized(ThreadReply, MAIL))) in Next(s, Step(0, CLEAN)).log;
  }

  const SENDING: seq<Action> :=
    [Step(0, CLEAN), Step(0, CLEAN.(account := Some(SENDER))), Step(0, CLEAN), Step(0, CLEAN)]

  lemma RunFour(s: State, a: Action, b: Action, c: Action, d: Action)
    ensures RunFrom(s, [a, b, c, d]) == Next(Next(Next(Next(s, a), b), c), d)
  {
    assert [a, b, c, d][..3] == [a, b, c] && [a, b, c][..2] == [a, b] && [a, b][..1] == [a] && [a][..0] == [];
    assert RunFrom(s, [a]) == Next(s, a);
    assert RunFrom(s, [a, b]) == Next(RunFrom(s, [a]), b);
  }

  lemma SendingAppointsNobody(user: nat)
    ensures NotAppointed(SENDING, user)
  {
  }

  lemma ReplyGoesOut(s: State)
    requires Replies(s, RowFor(ThreadReply), RequestFor(ThreadReply, Claiming)) && Epoch(s.log, REPLY) == 0
    ensures !NoCalls(RunFrom(s, SENDING).log, REPLY)
  {
    RunFour(s, SENDING[0], SENDING[1], SENDING[2], SENDING[3]);
    ReplyIsClaimed(s);
    var s1 := Next(s, SENDING[0]);
    ReplyIsChecked(s1);
    var s2 := Next(s1, SENDING[1]);
    ReplySenderIsMatched(s2);
    ReplyIsCalled(Next(s2, SENDING[2]));
  }

  lemma UnseenReplyRun() returns (acts: seq<Action>)
    ensures Replies(Run(acts), RowFor(ThreadReply), RequestFor(ThreadReply, Claiming))
    ensures StandingOf(Run(acts), 7).Inactive? && Epoch(Run(acts).log, REPLY) == 0 && NoCalls(Run(acts).log, REPLY)
  {
    acts := UnpreparedRun(ThreadReply);
    acts := Extend(acts, StartDisable(0, 7), REPLY);
    RequestPrepares(Run(acts), ThreadReply);
    acts := Extend(acts, Step(0, CLEAN), REPLY);
    UnseenReplyStays(Run(acts));
    acts := Extend(acts, Disable(0), REPLY);
  }

  /** A reply prepared after the disabling began and before it took effect: its sender is disabled, and it is sent. */
  lemma DisabledSenderSends() returns (acts: seq<Action>)
    ensures StandingOf(Run(acts), 7).Inactive? && NoCalls(Run(acts).log, REPLY)
    ensures NotAppointed(SENDING, 7) && !NoCalls(RunFrom(Run(acts), SENDING).log, REPLY)
  {
    acts := UnseenReplyRun();
    SendingAppointsNobody(7);
    ReplyGoesOut(Run(acts));
  }
}
