/**
  `_PosixChild` and the foreground driver. The operating system is a script: each system call takes
  the next reply from it, and a reply says whether the child has exited by now, whether its group
  has other members, whether the call fails, and whether a forwarded signal interrupts it. Every
  script is allowed, so the theorems hold for every behaviour of the child, the system and the user.

  Times are in milliseconds. Only this supervisor reaps the child.
*/
module PosixChild {
  import opened Wrappers

  datatype Reply = Reply(exits: Option<int>, others: bool, fails: bool, interrupts: bool, elapsed: nat)

  datatype Event = GroupSignal(signum: int) | ReapAttempt

  /** `exit` is the status of the child once it is a zombie. `waiting` says that the signal guard is in
      its waiting state, in which one signal may still be raised. The rest is history: `lastLook` is the
      last answer about other group members; `cutShort` is the verdict of the polling before a reap that
      succeeded and was then interrupted by a signal; `raisedAt` is the length of the log when a signal
      was raised; `failed` says that a call was made to fail; `gaveUp` counts the pollings that ran out of
      time. */
  datatype World = World(
    script: seq<Reply>, exit: Option<int>, waiting: bool, clock: int,
    reaps: nat, reapedWith: Option<int>, lastLook: Option<bool>, slept: nat, cutShort: Option<bool>,
    raisedAt: Option<nat>, failed: bool, gaveUp: nat, log: seq<Event>)

  /** The fields of `_PosixChild`. */
  datatype Child = Child(observed: Option<int>, reaped: bool, signalAllowed: bool, cleanupError: bool)

  datatype Call<+T> = Returned(value: T) | Failed | Interrupted

  datatype State = State(child: Child, world: World)

  const SIGKILL: int := 9
  const SIGTERM: int := 15
  const POLL := 20

  // ---------------------------------------------------------------- system calls

  const Quiet := Reply(None, false, false, false, 0)

  function Next(w: World): Reply { if w.script == [] then Quiet else w.script[0] }

  predicate Interrupts(w: World) { Next(w).interrupts && w.waiting }

  /** Time passes, the child may exit, and a raised signal ends the waiting state of the guard. */
  function Advance(w: World): World {
    w.(script := if w.script == [] then [] else w.script[1..],
       exit := if w.exit.None? && w.reaps == 0 then Next(w).exits else w.exit,
       waiting := w.waiting && !Next(w).interrupts,
       raisedAt := if Interrupts(w) then Some(|w.log|) else w.raisedAt,
       failed := w.failed || Next(w).fails,
       clock := w.clock + Next(w).elapsed)
  }

  /** waitid with WNOWAIT and WNOHANG. */
  function WaitId(w: World): (Call<Option<int>>, World) {
    var v := Advance(w);
    (if Interrupts(w) then Interrupted else if Next(w).fails || v.reaps > 0 then Failed else Returned(v.exit), v)
  }

  function Look(w: World): (Call<bool>, World) {
    var v := Advance(w);
    if Interrupts(w) then (Interrupted, v.(lastLook := None))
    else if Next(w).fails then (Failed, v.(lastLook := None))
    else (Returned(Next(w).others), v.(lastLook := Some(Next(w).others)))
  }

  function Kill(w: World, signum: int): (Call<()>, World) {
    var v := Advance(w.(log := w.log + [GroupSignal(signum)]));
    (if Interrupts(w) then Interrupted else if Next(w).fails then Failed else Returned(()), v)
  }

  function Sleep(w: World, time: nat): (r: (Call<()>, World))
    ensures r.1.clock >= w.clock + time && !r.0.Failed?
  {
    var v := Advance(w);
    (if Interrupts(w) then Interrupted else Returned(()), v.(clock := v.clock + time, slept := v.slept + time))
  }

  // ---------------------------------------------------------------- methods of _PosixChild

  function SignalGroup(s: State, signum: int): (Call<()>, State) {
    if !s.child.signalAllowed || s.child.reaped then (Returned(()), s)
    else
      // _validate_process_group
      var v := Advance(s.world);
      if Interrupts(s.world) then (Interrupted, s.(world := v))
      else if Next(s.world).fails then (Failed, s.(world := v))
      else var (r, u) := Kill(v, signum); (r, s.(world := u))
  }

  function ObserveExit(s: State): (Call<bool>, State) {
    if s.child.observed.Some? then (Returned(true), s)
    else
      var (r, w) := WaitId(s.world);
      match r
      case Returned(None) => (Returned(false), s.(world := w))
      case Returned(Some(code)) => (Returned(true), State(s.child.(observed := Some(code)), w))
      case Failed => (Failed, s.(world := w))
      case Interrupted => (Interrupted, s.(world := w))
  }

  datatype Poll = Seen(exited: bool, others: bool, failed: bool) | Broken

  /** One look at the direct child and at its group; a failure counts as "still there". */
  function PollOnce(s: State): (r: (Poll, State))
    ensures r.1.world.clock >= s.world.clock
  {
    var (r, t) := ObserveExit(s);
    match r
    case Interrupted => (Broken, t)
    case Failed => (Seen(false, true, true), t)
    case Returned(exited) =>
      var (l, w) := Look(t.world);
      match l
      case Interrupted => (Broken, t.(world := w))
      case Failed => (Seen(false, true, true), t.(world := w))
      case Returned(others) => (Seen(exited, others, false), t.(world := w))
  }

  function Min(a: int, b: int): int { if a < b then a else b }

  datatype Waited = Done(complete: bool, failure: bool) | Torn

  function GiveUp(s: State): State { s.(world := s.world.(gaveUp := s.world.gaveUp + 1)) }

  function WaitForTree(s: State, deadline: int, failure: bool): (Waited, State)
    decreases deadline - s.world.clock
  {
    var (p, t) := PollOnce(s);
    if p.Broken? then (Torn, t)
    else
      var failure := failure || p.failed;
      var remaining := deadline - t.world.clock;
      if p.exited && !p.others then (Done(true, failure), t)
      else if remaining <= 0 then (Done(false, failure), GiveUp(t))
      else
        hide PollOnce, Sleep;
        var (r, w) := Sleep(t.world, Min(POLL, remaining));
        if r.Interrupted? then (Torn, t.(world := w)) else WaitForTree(t.(world := w), deadline, failure)
  }

  datatype Reap = Code(code: int) | StillRunning | ReapFailed | ReapInterrupted

  /** `_wait_and_mark_direct_reaped`: signals are blocked around the reap and one that came meanwhile
      is raised as soon as the mask is restored. */
  function WaitAndMark(s: State): (Reap, State) {
    var w := Advance(s.world);
    if Interrupts(s.world) then (ReapInterrupted, s.(world := w))
    else
      var v := Advance(w.(log := w.log + [ReapAttempt]));
      var reaped := !Next(w).fails && v.exit.Some? && v.reaps == 0;
      var t := if reaped then State(s.child.(signalAllowed := false, reaped := true), v.(reaps := 1, reapedWith := v.exit))
               else State(s.child.(signalAllowed := false), v);
      (if Interrupts(w) then ReapInterrupted
       else if reaped then Code(v.exit.value)
       else if Next(w).fails then ReapFailed
       else StillRunning, t)
  }

  /** A reap cut short by a signal leaves no trace of an incomplete cleanup in the child's fields. */
  function CutShort(s: State, complete: bool): State {
    if s.child.reaped then s.(world := s.world.(cutShort := Some(complete))) else s
  }

  /** The last part of `_clean_and_reap`: reap, and report any failure on the way. Without a signal to
      the group (`shortcut`) a failure is remembered even when the child was not reaped. */
  function FinishReap(s: State, complete: bool, failure: bool, shortcut: bool): (Call<()>, State) {
    var (r, t) := WaitAndMark(s);
    if r.ReapInterrupted? then (Interrupted, CutShort(t, complete))
    else if s.child.observed.Some? && r == Code(s.child.observed.value) && complete && !failure then (Returned(()), t)
    else (Failed, t.(child := t.child.(cleanupError := t.child.cleanupError || t.child.reaped || shortcut)))
  }

  /** Signal the group, then poll until everything is gone or the timeout has passed. */
  function SignalThenPoll(s: State, signum: int, timeout: nat, failure: bool): (Waited, State) {
    var (r, t) := SignalGroup(s, signum);
    if r.Interrupted? then (Torn, t) else WaitForTree(t, t.world.clock + timeout, failure || r.Failed?)
  }

  /** First softly, then with SIGKILL. */
  function SignalAndWait(s: State, signum: int, timeout: nat, failure: bool): (Waited, State) {
    var (first, t) := SignalThenPoll(s, signum, timeout, failure);
    if first.Torn? || first.complete then (first, t) else SignalThenPoll(t, SIGKILL, timeout, first.failure)
  }

  function SignalAndReap(s: State, signum: int, timeout: nat, failure: bool): (Call<()>, State) {
    var (q, t) := SignalAndWait(s, signum, timeout, failure);
    if q.Torn? then (Interrupted, t) else FinishReap(t, q.complete, q.failure, false)
  }

  /** With `signal_only_if_members`: an observed child without group members is only reaped. */
  function SignalIfMembers(s: State, signum: int, timeout: nat, failure: bool): (Call<()>, State) {
    var (l, w) := Look(s.world);
    var t := s.(world := w);
    if l.Interrupted? then (Interrupted, t)
    else if l == Returned(false) && t.child.observed.Some? then FinishReap(t, true, failure, true)
    else SignalAndReap(t, signum, timeout, failure || l.Failed?)
  }

  /** `_clean_and_reap`. */
  function CleanAndReap(s: State, signum: int, timeout: nat, onlyIfMembers: bool): (Call<()>, State) {
    if s.child.reaped then (if s.child.cleanupError then Failed else Returned(()), s)
    else
      var (o, t) := ObserveExit(s);
      if o.Interrupted? then (Interrupted, t)
      else if onlyIfMembers then SignalIfMembers(t, signum, timeout, o.Failed?)
      else SignalAndReap(t, signum, timeout, o.Failed?)
  }

  function CloseRemainingTree(s: State, timeout: nat): (Call<()>, State) {
    if s.child.observed.None? && !s.child.reaped then (Failed, s) else CleanAndReap(s, SIGTERM, timeout, true)
  }

  function EnsureClosed(s: State, timeout: nat): (Call<()>, State) {
    if s.child.reaped then (if s.child.cleanupError then Failed else Returned(()), s)
    else if s.child.observed.Some? then CloseRemainingTree(s, timeout)
    else CleanAndReap(s, SIGTERM, timeout, false)
  }

  // ---------------------------------------------------------------- the foreground driver

  datatype Ending = Finished(code: int) | Signalled | Errored | Hung

  datatype Outcome = Exit(code: int) | SupervisionError | SignalEscapes | StillWaiting

  const TIMEOUT := 5000

  /** `wait`: blocks until the child is a zombie, a signal is raised, or the system call fails. The end of
      the script stands for a child that is still running. */
  function WaitChild(s: State): (Ending, State)
    decreases |s.world.script|
  {
    if s.child.observed.Some? then (Finished(s.child.observed.value), s)
    else if s.world.script == [] then (Hung, s)
    else
      var (r, t) := ObserveExit(s);
      match r
      case Interrupted => (Signalled, t)
      case Failed => (Errored, t)
      case Returned(true) => (Finished(t.child.observed.value), t)
      case Returned(false) => WaitChild(t)
  }

  function Body(s: State): (Ending, State) {
    var (e, t) := WaitChild(s);
    if !e.Finished? then (e, t)
    else
      var (r, u) := CloseRemainingTree(t, TIMEOUT);
      (if r.Returned? then e else if r.Failed? then Errored else Signalled, u)
  }

  /** `begin_cleanup`: from here on a signal is forwarded, never raised. */
  function BeginCleanup(s: State): State { s.(world := s.world.(waiting := false)) }

  function Close(s: State, outcome: Outcome): (Outcome, State) {
    var (r, t) := EnsureClosed(BeginCleanup(s), TIMEOUT);
    (if r.Returned? then outcome else SupervisionError, t)
  }

  /** `attach` raises the signal that came before the child. */
  function Raised(s: State): State { s.(world := s.world.(raisedAt := Some(|s.world.log|))) }

  /** `_default_runner` once the child has been started. `pending` says that a signal was received
      before the child was attached; `signum` is the one signal the guard may raise. */
  function Drive(s: State, pending: bool, signum: int): (Outcome, State) {
    var (e, t) := if pending then (Signalled, Raised(s)) else Body(s.(world := s.world.(waiting := true)));
    match e
    case Hung => (StillWaiting, t)
    case Finished(code) =>
      if Interrupts(t.world) then (SignalEscapes, t.(world := Advance(t.world))) else Close(t, Exit(code))
    case Signalled =>
      var (r, u) := CleanAndReap(BeginCleanup(t), signum, TIMEOUT, false);
      Close(u, if r.Returned? then Exit(128 + signum) else SupervisionError)
    case Errored =>
      if Interrupts(t.world) then Close(t.(world := Advance(t.world)), SignalEscapes)
      else
        var (_, u) := CleanAndReap(BeginCleanup(t), SIGTERM, TIMEOUT, false);
        Close(u, SupervisionError)
  }
}
