/** What the cleanup of `_PosixChild` guarantees for every script, and the one case it misses. */
module PosixCleanup {
  import opened Wrappers
  import opened PosixChild

  /** No group signal is issued after a reap attempt. */
  predicate NoSignalAfterReap(log: seq<Event>) {
    forall i, j | 0 <= i < j < |log| :: log[i].ReapAttempt? ==> !log[j].GroupSignal?
  }

  predicate LooksClosed(s: State) { s.child.observed.Some? && s.world.lastLook == Some(false) }

  /** The child was reaped with the status first observed, and its group was last seen empty. */
  predicate Clean(s: State) { LooksClosed(s) && s.world.reapedWith == s.child.observed }

  predicate Inv(s: State) {
    && s.world.reaps == (if s.child.reaped then 1 else 0)
    && (s.child.reaped ==> s.world.exit.Some? && s.world.reapedWith == s.world.exit)
    && (s.child.observed.Some? ==> s.world.exit == s.child.observed)
    && (s.child.signalAllowed ==> !s.child.reaped && ReapAttempt !in s.world.log)
    && NoSignalAfterReap(s.world.log)
    && (s.world.cutShort.Some? ==> s.child.reaped)
    && (s.child.reaped && !s.child.cleanupError ==> (Clean(s) <==> s.world.cutShort != Some(false)))
  }

  /** What no call changes back: an interruption needs, and uses up, the guard's waiting state. */
  predicate Grows(s: State, t: State) {
    && (t.world.waiting ==> s.world.waiting)
    && (s.child.observed.Some? ==> t.child.observed == s.child.observed)
    && s.world.slept <= t.world.slept && s.world.clock <= t.world.clock
  }

  lemma SignalGroupKeeps(s: State, signum: int)
    requires Inv(s)
    ensures var (r, t) := SignalGroup(s, signum);
      && Inv(t) && Grows(s, t) && t.child == s.child && t.world.slept == s.world.slept && t.world.cutShort == s.world.cutShort
      && (r.Interrupted? ==> s.world.waiting && !t.world.waiting)
  {
  }

  lemma ObserveKeeps(s: State)
    requires Inv(s) && !s.child.reaped
    ensures var (r, t) := ObserveExit(s);
      && Inv(t) && Grows(s, t) && !t.child.reaped && t.world.slept == s.world.slept && t.world.cutShort == s.world.cutShort
      && (r.Interrupted? ==> s.world.waiting && !t.world.waiting)
      && (r.Returned? ==> (r.value <==> t.child.observed.Some?))
      && (r.Failed? ==> t.child.observed.None?)
  {
  }

  lemma PollKeeps(s: State)
    requires Inv(s) && !s.child.reaped
    ensures var (p, t) := PollOnce(s);
      && Inv(t) && Grows(s, t) && !t.child.reaped && t.world.slept == s.world.slept && t.world.cutShort == s.world.cutShort
      && (p.Broken? ==> s.world.waiting && !t.world.waiting)
      && (p.Seen? ==> (p.exited && !p.others <==> LooksClosed(t)))
  {
    ObserveKeeps(s);
  }

  lemma SleepKeeps(s: State, time: nat)
    requires Inv(s)
    ensures var (r, w) := Sleep(s.world, time);
      var t := s.(world := w);
      && Inv(t) && Grows(s, t) && t.world.cutShort == s.world.cutShort && w.lastLook == s.world.lastLook
      && w.slept == s.world.slept + time && w.clock >= s.world.clock + time
      && (r.Interrupted? ==> s.world.waiting && !w.waiting)
  {
  }

  function Left(deadline: int, clock: int): nat { if clock < deadline then deadline - clock else 0 }

  lemma GiveUpKeeps(s: State)
    requires Inv(s)
    ensures var t := GiveUp(s);
      && Inv(t) && t.child == s.child && (LooksClosed(t) <==> LooksClosed(s))
      && t.world == s.world.(gaveUp := s.world.gaveUp + 1)
  {}

  // What polling that began in `s` and ended with `q` in `t` guarantees.
  predicate Polled(s: State, deadline: int, q: Waited, t: State) {
    && Inv(t) && Grows(s, t) && !t.child.reaped && t.world.cutShort == s.world.cutShort
    && t.world.slept - s.world.slept <= Left(deadline, s.world.clock)
    && (q.Torn? ==> s.world.waiting && !t.world.waiting)
    && (q.Done? ==> (q.complete <==> LooksClosed(t)) && (!q.complete ==> t.world.clock >= deadline))
  }

  lemma PolledAfterSleep(s: State, t: State, u: State, v: State, deadline: int, q: Waited)
    requires Grows(s, t) && Grows(t, u) && t.world.slept == s.world.slept
    requires t.world.cutShort == s.world.cutShort == u.world.cutShort && t.world.clock < deadline
    requires 0 <= u.world.slept - t.world.slept <= deadline - t.world.clock
    requires u.world.clock >= t.world.clock + (u.world.slept - t.world.slept) && Polled(u, deadline, q, v)
    ensures Polled(s, deadline, q, v)
  {
    hide Inv, LooksClosed;
  }

  /** Polling ends, sleeps no longer than to its deadline, and reports completion exactly when the
      child has been seen dead and its group empty. */
  lemma {:induction false} WaitForTreeKeeps(s: State, deadline: int, failure: bool)
    requires Inv(s) && !s.child.reaped
    ensures var (q, t) := WaitForTree(s, deadline, failure); Polled(s, deadline, q, t)
    decreases deadline - s.world.clock
  {
    hide Inv, PollOnce, Sleep, LooksClosed, GiveUp;
    PollKeeps(s);
    var (p, t) := PollOnce(s);
    GiveUpKeeps(t);
    var remaining := deadline - t.world.clock;
    if p.Seen? && !(p.exited && !p.others) && remaining > 0 {
      var time := Min(POLL, remaining);
      SleepKeeps(t, time);
      var (r, w) := Sleep(t.world, time);
      var u := t.(world := w);
      if r.Returned? {
        WaitForTreeKeeps(u, deadline, failure || p.failed);
        var (q, v) := WaitForTree(u, deadline, failure || p.failed);
        PolledAfterSleep(s, t, u, v, deadline, q);
        hide Polled, Grows;
      }
    }
  }

  lemma SignalThenPollKeeps(s: State, signum: int, timeout: nat, failure: bool)
    requires Inv(s) && !s.child.reaped
    ensures var (q, t) := SignalThenPoll(s, signum, timeout, failure);
      && Inv(t) && Grows(s, t) && !t.child.reaped && t.world.cutShort == s.world.cutShort
      && t.world.slept - s.world.slept <= timeout
      && (q.Torn? ==> s.world.waiting && !t.world.waiting)
      && (q.Done? ==> (q.complete <==> LooksClosed(t)))
  {
    hide SignalGroup, WaitForTree, LooksClosed;
    SignalGroupKeeps(s, signum);
    var (r, t) := SignalGroup(s, signum);
    WaitForTreeKeeps(t, t.world.clock + timeout, failure || r.Failed?);
    hide Inv;
  }

  lemma SignalAndWaitKeeps(s: State, signum: int, timeout: nat, failure: bool)
    requires Inv(s) && !s.child.reaped
    ensures var (q, t) := SignalAndWait(s, signum, timeout, failure);
      && Inv(t) && Grows(s, t) && !t.child.reaped && t.world.cutShort == s.world.cutShort
      && t.world.slept - s.world.slept <= 2 * timeout
      && (q.Torn? ==> s.world.waiting && !t.world.waiting)
      && (q.Done? ==> (q.complete <==> LooksClosed(t)))
  {
    SignalThenPollKeeps(s, signum, timeout, failure);
    var (first, t) := SignalThenPoll(s, signum, timeout, failure);
    if first.Done? { SignalThenPollKeeps(t, SIGKILL, timeout, first.failure); }
    hide Inv, SignalThenPoll, LooksClosed;
  }

  lemma WaitAndMarkKeeps(s: State)
    requires Inv(s) && !s.child.reaped
    ensures var (r, t) := WaitAndMark(s);
      && t.child == s.child.(signalAllowed := t.child.signalAllowed, reaped := t.child.reaped)
      && t.world.lastLook == s.world.lastLook && t.world.slept == s.world.slept && t.world.cutShort == s.world.cutShort
      && t.world.clock >= s.world.clock && (t.world.waiting ==> s.world.waiting)
      && (r.ReapInterrupted? ==> s.world.waiting && !t.world.waiting)
      && (r.Code? ==> t.child.reaped && t.world.exit == Some(r.code))
      && (!r.Code? && !r.ReapInterrupted? ==> !t.child.reaped)
      && t.world.reaps == (if t.child.reaped then 1 else 0)
      && (t.child.reaped ==> t.world.exit.Some? && t.world.reapedWith == t.world.exit)
      && (t.child.observed.Some? ==> t.world.exit == t.child.observed)
      && (t.child.signalAllowed ==> t.world.log == s.world.log && !t.child.reaped)
      && (t.world.log == s.world.log || t.world.log == s.world.log + [ReapAttempt])
  {
  }

  /** What a cleanup call that started in `s` and ended with `r` in `t` guarantees. */
  predicate Cleaned(s: State, r: Call<()>, t: State) {
    && Inv(t) && Grows(s, t)
    && (r.Returned? ==> t.child.reaped && (Clean(t) <==> t.world.cutShort != Some(false)))
    && (r.Interrupted? ==> s.world.waiting && !t.world.waiting)
    && (t.world.cutShort != s.world.cutShort ==> r.Interrupted?)
  }

  lemma FinishKeeps(s: State, complete: bool, failure: bool, shortcut: bool)
    requires Inv(s) && !s.child.reaped && (complete <==> LooksClosed(s))
    ensures var (r, t) := FinishReap(s, complete, failure, shortcut);
      Cleaned(s, r, t) && t.world.slept == s.world.slept
  {
    WaitAndMarkKeeps(s);
    hide WaitAndMark;
  }

  lemma LookKeeps(s: State)
    requires Inv(s) && !s.child.reaped
    ensures var (l, w) := Look(s.world);
      var t := s.(world := w);
      && Inv(t) && Grows(s, t) && w.slept == s.world.slept && w.cutShort == s.world.cutShort
      && (l.Interrupted? ==> s.world.waiting && !w.waiting)
      && (l == Returned(false) <==> w.lastLook == Some(false))
  {
  }

  lemma SignalAndReapKeeps(s: State, signum: int, timeout: nat, failure: bool)
    requires Inv(s) && !s.child.reaped
    ensures var (r, t) := SignalAndReap(s, signum, timeout, failure);
      Cleaned(s, r, t) && t.world.slept - s.world.slept <= 2 * timeout
  {
    SignalAndWaitKeeps(s, signum, timeout, failure);
    var (q, v) := SignalAndWait(s, signum, timeout, failure);
    if q.Done? { FinishKeeps(v, q.complete, q.failure, false); }
    hide Inv, LooksClosed, Clean, SignalAndWait, FinishReap;
  }

  lemma SignalIfMembersKeeps(s: State, signum: int, timeout: nat, failure: bool)
    requires Inv(s) && !s.child.reaped
    ensures var (r, t) := SignalIfMembers(s, signum, timeout, failure);
      Cleaned(s, r, t) && t.world.slept - s.world.slept <= 2 * timeout
  {
    LookKeeps(s);
    var (l, w) := Look(s.world);
    var t := s.(world := w);
    if !l.Interrupted? {
      if l == Returned(false) && t.child.observed.Some? {
        FinishKeeps(t, true, failure, true);
      } else {
        SignalAndReapKeeps(t, signum, timeout, failure || l.Failed?);
      }
    }
    hide Inv, LooksClosed, Clean, SignalAndReap, FinishReap, Look;
  }

  /** Every cleanup call: if it returns, the child was reaped exactly once, and with the status first
      observed and its group seen empty exactly unless an incomplete polling was followed by a reap that a
      signal cut short; it sleeps at most two timeouts, and never signals the group after a reap attempt. */
  lemma CleanAndReapKeeps(s: State, signum: int, timeout: nat, onlyIfMembers: bool)
    requires Inv(s)
    ensures var (r, t) := CleanAndReap(s, signum, timeout, onlyIfMembers);
      Cleaned(s, r, t) && t.world.slept - s.world.slept <= 2 * timeout
  {
    if !s.child.reaped {
      ObserveKeeps(s);
      var (o, t) := ObserveExit(s);
      if onlyIfMembers {
        SignalIfMembersKeeps(t, signum, timeout, o.Failed?);
      } else {
        SignalAndReapKeeps(t, signum, timeout, o.Failed?);
      }
      hide Inv, Clean, ObserveExit, SignalIfMembers, SignalAndReap;
    }
  }

  lemma EnsureClosedKeeps(s: State, timeout: nat)
    requires Inv(s)
    ensures var (r, t) := EnsureClosed(s, timeout); Cleaned(s, r, t) && t.world.slept - s.world.slept <= 2 * timeout
    ensures var (r, t) := CloseRemainingTree(s, timeout); Cleaned(s, r, t) && t.world.slept - s.world.slept <= 2 * timeout
  {
    CleanAndReapKeeps(s, SIGTERM, timeout, true);
    CleanAndReapKeeps(s, SIGTERM, timeout, false);
    hide CleanAndReap;
  }

  // ---------------------------------------------------------------- the driver

  const Started := State(Child(None, false, true, false), World([], None, false, 0, 0, None, None, 0, None, None, false, 0, []))

  lemma {:induction false} WaitChildKeeps(s: State)
    requires Inv(s) && !s.child.reaped
    ensures var (e, t) := WaitChild(s);
      && Inv(t) && Grows(s, t) && !t.child.reaped && t.world.cutShort == s.world.cutShort
      && (e.Finished? ==> t.child.observed == Some(e.code))
      && (e.Signalled? ==> s.world.waiting && !t.world.waiting)
    decreases |s.world.script|
  {
    if s.child.observed.None? && s.world.script != [] {
      ObserveKeeps(s);
      var (r, t) := ObserveExit(s);
      if r == Returned(false) { WaitChildKeeps(t); }
      hide Inv;
    }
  }

  lemma CodeStays(s: State, timeout: nat)
    requires Inv(s) && s.child.observed.Some?
    ensures CloseRemainingTree(s, timeout).1.child.observed == s.child.observed
  {
    EnsureClosedKeeps(s, timeout);
    hide CloseRemainingTree, EnsureClosed, Inv;
  }

  lemma BodyKeeps(s: State)
    requires Inv(s) && !s.child.reaped && s.world.cutShort.None?
    ensures var (e, t) := Body(s);
      && Inv(t) && Grows(s, t)
      && (e.Finished? ==> t.child.reaped && Clean(t) && t.world.cutShort.None? && t.child.observed == Some(e.code))
      && (e.Signalled? ==> s.world.waiting && !t.world.waiting)
      && (t.world.cutShort.Some? ==> e.Signalled?)
  {
    hide Inv, Clean, CloseRemainingTree, EnsureClosed, WaitChild;
    WaitChildKeeps(s);
    var (e, t) := WaitChild(s);
    EnsureClosedKeeps(t, TIMEOUT);
    if e.Finished? { CodeStays(t, TIMEOUT); }
  }

  lemma CloseKeeps(s: State, outcome: Outcome)
    requires Inv(s)
    ensures var (o, t) := Close(s, outcome);
      && Inv(t) && t.world.cutShort == s.world.cutShort
      && (o != SupervisionError ==> o == outcome && t.child.reaped && (Clean(t) <==> t.world.cutShort != Some(false)))
      && (s.child.observed.Some? ==> t.child.observed == s.child.observed)
  {
    EnsureClosedKeeps(BeginCleanup(s), TIMEOUT);
    hide EnsureClosed, Clean;
  }

  /** Every path of the driver: unless it is still waiting or reports an error, the child was reaped
      exactly once, no group signal followed the reap attempt, and the cleanup was complete exactly
      unless a signal cut the reap short after an incomplete polling; an exit code of the child is the status it was reaped with. */
  lemma DriverEndsReapedOrInError(script: seq<Reply>, pending: bool, signum: int)
    ensures var (o, t) := Drive(Started.(world := Started.world.(script := script)), pending, signum);
      && NoSignalAfterReap(t.world.log)
      && (o.Exit? || o.SignalEscapes? ==>
            t.world.reaps == 1 && (Clean(t) <==> t.world.cutShort != Some(false)))
      && (o.Exit? ==> (Clean(t) && t.world.reapedWith == Some(o.code)) || o.code == 128 + signum)
  {
    var s := Started.(world := Started.world.(script := script));
    var b := s.(world := s.world.(waiting := true));
    BodyKeeps(b);
    var (e, t) := if pending then (Signalled, Raised(s)) else Body(b);
    if e.Finished? {
      CloseKeeps(t, Exit(e.code));
    } else if e.Signalled? {
      CleanAndReapKeeps(BeginCleanup(t), signum, TIMEOUT, false);
      var (r, u) := CleanAndReap(BeginCleanup(t), signum, TIMEOUT, false);
      CloseKeeps(u, if r.Returned? then Exit(128 + signum) else SupervisionError);
    } else if e.Errored? {
      CleanAndReapKeeps(BeginCleanup(t), SIGTERM, TIMEOUT, false);
      var (_, u) := CleanAndReap(BeginCleanup(t), SIGTERM, TIMEOUT, false);
      CloseKeeps(u, SupervisionError);
      CloseKeeps(t.(world := Advance(t.world)), SignalEscapes);
    }
    hide Body, Close, CleanAndReap;
  }

  // ---------------------------------------------------------------- the reap cut short

  const Exits0 := Reply(Some(0), true, false, false, 0)
  const Calm := Reply(None, true, false, false, 0)
  const Crowded := Reply(None, true, false, false, 5000)
  const Interrupt := Reply(None, true, false, true, 0)

  /** The direct child exits, another member of its group survives both signals and both timeouts, and a
      signal is raised when the mask is restored after the reap. */
  const TornScript := [Exits0, Calm, Calm, Calm, Crowded, Calm, Calm, Crowded, Calm, Interrupt]

  const TornStart := State(Child(Some(0), false, true, false),
                           World(TornScript[1..], Some(0), true, 0, 0, None, None, 0, None, None, false, 0, []))

  lemma CrowdedPoll(s: State, signum: int)
    requires s.child == Child(Some(0), false, true, false) && s.world.exit == Some(0)
    requires |s.world.script| >= 3 && s.world.script[..3] == [Calm, Calm, Crowded]
    ensures SignalThenPoll(s, signum, TIMEOUT, false)
         == (Done(false, false), s.(world := s.world.(script := s.world.script[3..], clock := s.world.clock + 5000, lastLook := Some(true),
                                                     gaveUp := s.world.gaveUp + 1, log := s.world.log + [GroupSignal(signum)])))
  {
    var w := s.world;
    var w1 := w.(script := w.script[1..]);
    var w2 := w.(script := w.script[2..], log := w.log + [GroupSignal(signum)]);
    assert w.script[0] == Calm && w.script[1] == Calm && w.script[2] == Crowded;
    assert Advance(w) == w1;
    assert w1.script[1..] == w.script[2..];
    assert Kill(w1, signum) == (Returned(()), w2);
    assert SignalGroup(s, signum) == (Returned(()), s.(world := w2));
    assert w2.script[1..] == w.script[3..];
    var w3 := w2.(script := w.script[3..], clock := w.clock + 5000, lastLook := Some(true));
    assert Look(w2) == (Returned(true), w3);
    assert PollOnce(s.(world := w2)) == (Seen(true, true, false), s.(world := w3));
  }

  lemma TornClose()
    ensures var (r, t) := CloseRemainingTree(TornStart, TIMEOUT);
      r == Interrupted && t.child.reaped && !t.child.cleanupError && t.world.lastLook == Some(true) && t.world.reapedWith == Some(0)
  {
    var s := TornStart;
    var w := s.world;
    assert w.script == [Calm, Calm, Calm, Crowded, Calm, Calm, Crowded, Calm, Interrupt];
    var s1 := s.(world := w.(script := w.script[1..], lastLook := Some(true)));
    assert Look(w) == (Returned(true), s1.world);
    assert s1.world.script == [Calm, Calm, Crowded, Calm, Calm, Crowded, Calm, Interrupt];
    CrowdedPoll(s1, SIGTERM);
    var (_, s2) := SignalThenPoll(s1, SIGTERM, TIMEOUT, false);
    assert s2.world.script == [Calm, Calm, Crowded, Calm, Interrupt];
    CrowdedPoll(s2, SIGKILL);
    var (q, s3) := SignalThenPoll(s2, SIGKILL, TIMEOUT, false);
    assert s3.world.script == [Calm, Interrupt];
    assert SignalAndWait(s1, SIGTERM, TIMEOUT, false) == (q, s3);
    assert WaitAndMark(s3).0 == ReapInterrupted;
    hide SignalAndWait;
  }

  /** The gap: the driver returns 128 plus the signal as if all was well, although the group was last
      seen with members. */
  lemma TornReapHidesSurvivors()
    ensures var (o, t) := Drive(Started.(world := Started.world.(script := TornScript)), false, 2);
      o == Exit(130) && t.world.reaps == 1 && t.world.lastLook == Some(true) && t.world.cutShort == Some(false)
  {
    var s := Started.(world := Started.world.(script := TornScript));
    var b := s.(world := s.world.(waiting := true));
    assert ObserveExit(b) == (Returned(true), TornStart);
    TornClose();
    hide CloseRemainingTree;
    DriverEndsReapedOrInError(TornScript, false, 2);
  }
}
