/** Serving until told to stop: listener goroutine, one-slot channel and main flow, in every interleaving. */
module Shutdown {

  datatype Exit = NoError | ServerClosed | RealError

  datatype Listener = Serving | Exited(exit: Exit) | Sent(exit: Exit)

  datatype Outcome = Clean | ListenFailed | ShutdownFailed

  datatype Main = Selecting | ShuttingDown | Draining | Returned(outcome: Outcome)

  /** `channel` holds the values sent and not yet received: whether each is a real error. */
  datatype State = State(
    listener: Listener, channel: seq<bool>, main: Main, cancelled: bool, stopping: bool, sends: nat, receives: nat)

  const INITIAL := State(Serving, [], Selecting, false, false, 0, 0)

  const CAPACITY := 1

  datatype Action =
    | Cancel
    | ListenerExits(exit: Exit)
    | ListenerSends
    | MainReceives
    | MainSeesCancel
    | ShutdownReturns(failed: bool)

  /** Whether an action can happen now. The server reports itself closed only once it is being shut down. */
  predicate Enabled(s: State, a: Action) {
    match a
    case Cancel => !s.cancelled
    case ListenerExits(exit) => s.listener.Serving? && (exit.ServerClosed? ==> s.stopping)
    case ListenerSends => s.listener.Exited? && |s.channel| < CAPACITY
    case MainReceives => (s.main.Selecting? || s.main.Draining?) && s.channel != []
    case MainSeesCancel => s.main.Selecting? && s.cancelled
    case ShutdownReturns(_) => s.main.ShuttingDown?
  }

  function Do(s: State, a: Action): State
    requires Enabled(s, a)
  {
    match a
    case Cancel => s.(cancelled := true)
    case ListenerExits(exit) => s.(listener := Exited(exit))
    case ListenerSends =>
      s.(listener := Sent(s.listener.exit), channel := s.channel + [s.listener.exit.RealError?], sends := s.sends + 1)
    case MainReceives =>
      s.(main := Returned(if s.channel[0] then ListenFailed else Clean), channel := s.channel[1..],
         receives := s.receives + 1)
    case MainSeesCancel => s.(main := ShuttingDown, stopping := true)
    case ShutdownReturns(failed) => s.(main := if failed then Returned(ShutdownFailed) else Draining)
  }

  /** One action; one that is not enabled does not happen. */
  function Next(s: State, a: Action): State {
    if Enabled(s, a) then Do(s, a) else s
  }

  function Run(acts: seq<Action>): State {
    if acts == [] then INITIAL else Next(Run(acts[..|acts| - 1]), acts[|acts| - 1])
  }

  predicate Inv(s: State) {
    && s.sends == (if s.listener.Sent? then 1 else 0)
    && s.receives <= s.sends
    && s.channel == (if s.sends > s.receives then [s.listener.exit.RealError?] else [])
    && (s.main.ShuttingDown? || s.main.Draining? ==> s.stopping)
    && (!s.main.Returned? ==> s.receives == 0)
    && (s.main == Returned(ShutdownFailed) ==> s.receives == 0)
    && (s.main == Returned(Clean) ==> s.receives == 1 && !s.listener.exit.RealError?)
    && (s.main == Returned(ListenFailed) ==> s.receives == 1 && s.listener.exit.RealError?)
  }

  lemma {:induction false} RunsKeepInv(acts: seq<Action>)
    ensures Inv(Run(acts))
  {
    if acts != [] {
      RunsKeepInv(acts[..|acts| - 1]);
    }
  }

  /** The listener sends exactly once and its send never blocks; the main flow receives at most once. */
  lemma OneSendOneReceive(acts: seq<Action>)
    ensures var s := Run(acts);
            && (s.listener.Exited? ==> Enabled(s, ListenerSends))
            && s.sends == (if s.listener.Sent? then 1 else 0)
            && s.receives <= 1
  {
    RunsKeepInv(acts);
  }

  lemma {:induction false} StopsOnlyWhenCancelled(acts: seq<Action>)
    ensures var s := Run(acts);
            s.main.ShuttingDown? || s.main.Draining? || s.main == Returned(ShutdownFailed) ==> s.cancelled
  {
    if acts != [] {
      StopsOnlyWhenCancelled(acts[..|acts| - 1]);
    }
  }

  /**
   * What is returned is true: clean only after a listener that ended without a real error, a listener error only
   * after one. So a real error goes unreported only if shutting down itself failed.
   */
  lemma ErrorsAreReported(acts: seq<Action>)
    requires Run(acts).main.Returned?
    ensures var s := Run(acts);
            match s.main.outcome
            case Clean => s.listener.Sent? && !s.listener.exit.RealError?
            case ListenFailed => s.listener.Sent? && s.listener.exit.RealError?
            case ShutdownFailed => s.cancelled && s.receives == 0
    ensures var s := Run(acts);
            !s.listener.Serving? && s.listener.exit.RealError? ==> s.main.outcome in {ListenFailed, ShutdownFailed}
  {
    RunsKeepInv(acts);
    StopsOnlyWhenCancelled(acts);
  }

  /** A failed shutdown is reported as one, and only then; after one that worked the listener's end is awaited. */
  lemma {:induction false} ShutdownIsReported(acts: seq<Action>)
    ensures Run(acts).main == Returned(ShutdownFailed) ==> ShutdownReturns(true) in acts
    ensures Run(acts).main.Draining? ==> ShutdownReturns(false) in acts
  {
    if acts != [] {
      ShutdownIsReported(acts[..|acts| - 1]);
      assert forall a :: a in acts[..|acts| - 1] ==> a in acts;
    }
  }

  // ---- The main flow never waits for ever ----

  /** Steps that will come about by themselves: a stopped server's listener ends, a shutdown has a time limit. */
  predicate Due(s: State, a: Action) {
    Enabled(s, a) && !a.Cancel? && (a.ListenerExits? ==> s.stopping)
  }

  /** Still serving, and nobody has asked it to stop. */
  predicate AtWork(s: State) {
    s.main.Selecting? && s.listener.Serving? && !s.cancelled
  }

  function StepsLeft(s: State): nat {
    (match s.listener case Serving => 2 case Exited(_) => 1 case Sent(_) => 0)
    + match s.main case Selecting => 3 case ShuttingDown => 2 case Draining => 1 case Returned(_) => 0
  }

  /** Unless it has returned or is at work, some step is due; and each step leaves fewer to come. */
  lemma NeverStuck(acts: seq<Action>)
    ensures var s := Run(acts); s.main.Returned? || AtWork(s) || exists a :: Due(s, a)
    ensures forall a :: Enabled(Run(acts), a) && !a.Cancel? ==> StepsLeft(Next(Run(acts), a)) < StepsLeft(Run(acts))
  {
    var s := Run(acts);
    RunsKeepInv(acts);
    if !s.main.Returned? && !AtWork(s) {
      if s.main.ShuttingDown? {
        assert Due(s, ShutdownReturns(false));
      } else if s.listener.Exited? {
        assert Due(s, ListenerSends);
      } else if s.listener.Sent? {
        assert Due(s, MainReceives);
      } else if s.main.Draining? {
        assert Due(s, ListenerExits(ServerClosed));
      } else {
        assert Due(s, MainSeesCancel);
      }
    }
  }

  /** Actions each of which can happen when its turn comes. */
  predicate AllHappen(acts: seq<Action>, more: seq<Action>) {
    more != [] ==>
      AllHappen(acts, more[..|more| - 1]) && Enabled(Run(acts + more[..|more| - 1]), more[|more| - 1])
  }

  lemma {:induction false} BoundedBySteps(acts: seq<Action>, more: seq<Action>)
    requires Run(acts).cancelled && AllHappen(acts, more)
    ensures Run(acts + more).cancelled && StepsLeft(Run(acts + more)) + |more| <= StepsLeft(Run(acts))
  {
    if more == [] {
      assert acts + more == acts;
    } else {
      var before := more[..|more| - 1];
      assert (acts + more)[..|acts + more| - 1] == acts + before;
      BoundedBySteps(acts, before);
      NeverStuck(acts + before);
    }
  }

  /** Once cancelled it takes at most five more steps, and while it has not returned there is one to take. */
  lemma CancelledRunsEnd(acts: seq<Action>, more: seq<Action>)
    requires Run(acts).cancelled && AllHappen(acts, more)
    ensures |more| <= 5
    ensures Run(acts + more).main.Returned? || exists a :: Due(Run(acts + more), a)
  {
    NeverStuck(acts + more);
    BoundedBySteps(acts, more);
  }
}
