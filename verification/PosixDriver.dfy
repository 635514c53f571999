/** What the cleanup and the driver of a POSIX child answer, and which signals they send, in terms of what
    happened: a signal raised, a call that failed, a polling that ran out of time. */
module PosixDriver {
  import opened Wrappers
  import opened PosixChild
  import opened PosixCleanup

  // ---------------------------------------------------------------- history

  predicate Told(s: State) {
    && (s.world.raisedAt.Some? ==> !s.world.waiting && s.world.raisedAt.value <= |s.world.log|)
    && (s.child.cleanupError ==> s.world.failed || s.world.gaveUp > 0)
    && (!s.child.signalAllowed ==> ReapAttempt in s.world.log)
  }

  /** The history only grows, and a call is interrupted exactly when a signal was raised in it. */
  predicate Later(s: State, interrupted: bool, t: State) {
    && Told(t)
    && (s.world.failed ==> t.world.failed) && s.world.gaveUp <= t.world.gaveUp && s.world.log <= t.world.log
    && (if interrupted
        then s.world.raisedAt.None? && t.world.raisedAt == Some(|t.world.log|)
        else t.world.raisedAt == s.world.raisedAt && t.world.waiting == s.world.waiting)
  }

  // What of the history a step that is not a group signal or a reap leaves alone.
  predicate Silent(s: State, t: State) { t.world.log == s.world.log && t.world.gaveUp == s.world.gaveUp }

  lemma LaterTwice(s: State, t: State, interrupted: bool, u: State)
    requires Later(s, false, t) && Later(t, interrupted, u)
    ensures Later(s, interrupted, u)
  {}

  lemma SignalGroupTells(s: State, signum: int)
    requires Told(s)
    ensures var (r, t) := SignalGroup(s, signum);
      && Later(s, r.Interrupted?, t) && t.child == s.child && t.world.gaveUp == s.world.gaveUp
      && (r.Failed? ==> t.world.failed)
      && (r.Returned? ==> t.world.log == s.world.log + (if s.child.signalAllowed && !s.child.reaped then [GroupSignal(signum)] else []))
  {}

  lemma ObserveTells(s: State)
    requires Told(s) && s.world.reaps == 0
    ensures var (r, t) := ObserveExit(s);
      && Later(s, r.Interrupted?, t) && Silent(s, t) && (r.Failed? ==> t.world.failed)
      && t.child.signalAllowed == s.child.signalAllowed
  {}

  lemma LookTells(s: State)
    requires Told(s)
    ensures var (l, w) := Look(s.world);
      var t := s.(world := w);
      Later(s, l.Interrupted?, t) && Silent(s, t) && (l.Failed? ==> w.failed)
  {}

  lemma PollTells(s: State)
    requires Told(s) && s.world.reaps == 0
    ensures var (p, t) := PollOnce(s);
      && Later(s, p.Broken?, t) && Silent(s, t) && (p.Seen? && p.failed ==> t.world.failed)
      && t.child.signalAllowed == s.child.signalAllowed
  {
    ObserveTells(s);
    var (r, t) := ObserveExit(s);
    if r.Returned? { LookTells(t); }
    hide ObserveExit, Look, Told;
  }

  lemma SleepTells(s: State, time: nat)
    requires Told(s)
    ensures var (r, w) := Sleep(s.world, time);
      var t := s.(world := w);
      Later(s, r.Interrupted?, t) && Silent(s, t)
  {}

  /** Polling sends nothing, and counts once as given up exactly when it does not end complete. */
  predicate PolledTells(s: State, failure: bool, q: Waited, t: State) {
    && Later(s, q.Torn?, t) && t.world.log == s.world.log && t.child.signalAllowed == s.child.signalAllowed
    && (q.Done? ==> t.world.gaveUp == s.world.gaveUp + (if q.complete then 0 else 1))
    && (q.Done? && q.failure ==> failure || t.world.failed)
  }

  lemma {:induction false} WaitForTreeTells(s: State, deadline: int, failure: bool)
    requires Inv(s) && !s.child.reaped && Told(s)
    ensures var (q, t) := WaitForTree(s, deadline, failure); PolledTells(s, failure, q, t)
    decreases deadline - s.world.clock
  {
    hide Inv, PollOnce, Sleep, Told;
    PollKeeps(s);
    assert s.world.reaps == 0 by { ReapsNone(s); }
    PollTells(s);
    var (p, t) := PollOnce(s);
    GiveUpTells(t);
    var remaining := deadline - t.world.clock;
    if p.Seen? && !(p.exited && !p.others) && remaining > 0 {
      var time := Min(POLL, remaining);
      SleepKeeps(t, time);
      SleepTells(t, time);
      var (r, w) := Sleep(t.world, time);
      var u := t.(world := w);
      if r.Returned? { WaitForTreeTells(u, deadline, failure || p.failed); }
    }
  }

  lemma ReapsNone(s: State)
    requires Inv(s) && !s.child.reaped
    ensures s.world.reaps == 0
  {}

  lemma GiveUpTells(s: State)
    requires Told(s)
    ensures var t := GiveUp(s); Told(t)
  {}

  // ---------------------------------------------------------------- which signals are sent

  /** What polling after a signal, twice if need be, tells. Unless a call failed or a signal was raised, the
      signals sent are the given one and, if and only if the first polling ran out of time, SIGKILL. */
  predicate Sent(s: State, signum: int, q: Waited, failure: bool, t: State) {
    && Later(s, q.Torn?, t)
    && (q.Done? && !t.world.failed ==>
          t.world.log == s.world.log + (if !s.child.signalAllowed then []
                                        else if t.world.gaveUp == s.world.gaveUp then [GroupSignal(signum)]
                                        else [GroupSignal(signum), GroupSignal(SIGKILL)]))
    && (q.Done? && !q.complete ==> t.world.gaveUp > s.world.gaveUp)
    && (q.Done? && q.failure ==> failure || t.world.failed)
    && t.child.signalAllowed == s.child.signalAllowed
  }

  lemma SignalThenPollTells(s: State, signum: int, timeout: nat, failure: bool)
    requires Inv(s) && !s.child.reaped && Told(s)
    ensures var (q, t) := SignalThenPoll(s, signum, timeout, failure);
      && Later(s, q.Torn?, t) && Inv(t) && !t.child.reaped && t.child.signalAllowed == s.child.signalAllowed
      && (q.Done? ==> t.world.gaveUp == s.world.gaveUp + (if q.complete then 0 else 1))
      && (q.Done? && q.failure ==> failure || t.world.failed)
      && (q.Done? && !t.world.failed ==>
            t.world.log == s.world.log + (if s.child.signalAllowed then [GroupSignal(signum)] else []))
  {
    SignalThenPollKeeps(s, signum, timeout, failure);
    SignalGroupKeeps(s, signum);
    SignalGroupTells(s, signum);
    hide Inv, SignalGroup, WaitForTree, Told;
    var (r, t) := SignalGroup(s, signum);
    if !r.Interrupted? {
      WaitForTreeTells(t, t.world.clock + timeout, failure || r.Failed?);
    }
  }

  /** First softly, then with SIGKILL if and only if the first polling ran out of time. */
  lemma SignalAndWaitTells(s: State, signum: int, timeout: nat, failure: bool)
    requires Inv(s) && !s.child.reaped && Told(s)
    ensures var (q, t) := SignalAndWait(s, signum, timeout, failure);
      Sent(s, signum, q, failure, t) && Inv(t) && !t.child.reaped
  {
    SignalThenPollTells(s, signum, timeout, failure);
    var (first, t) := SignalThenPoll(s, signum, timeout, failure);
    if first.Done? && !first.complete {
      SignalThenPollTells(t, SIGKILL, timeout, first.failure);
    }
    hide Inv, SignalThenPoll, Told;
  }

  // ---------------------------------------------------------------- the reap

  lemma WaitAndMarkTells(s: State)
    requires Inv(s) && !s.child.reaped && Told(s)
    ensures var (r, t) := WaitAndMark(s);
      && Later(s, r.ReapInterrupted?, t) && t.world.gaveUp == s.world.gaveUp
      && (!r.ReapInterrupted? ==> t.world.log == s.world.log + [ReapAttempt])
      && (r.ReapFailed? ==> t.world.failed) && (r.StillRunning? ==> t.world.exit.None?)
      && (r.Code? ==> t.world.exit == Some(r.code))
  {}

  lemma ReapKeepsExit(s: State)
    requires Inv(s) && !s.child.reaped && s.child.observed.Some?
    ensures WaitAndMark(s).1.world.exit == s.child.observed
  {}

  /** The reap reports an error only after a failed call or an incomplete polling. */
  lemma FinishTells(s: State, complete: bool, failure: bool, shortcut: bool)
    requires Inv(s) && !s.child.reaped && Told(s) && (complete <==> LooksClosed(s))
    requires failure ==> s.world.failed
    requires !complete ==> s.world.gaveUp > 0
    ensures var (r, t) := FinishReap(s, complete, failure, shortcut);
      && Later(s, r.Interrupted?, t) && t.world.gaveUp == s.world.gaveUp
      && (!r.Interrupted? ==> t.world.log == s.world.log + [ReapAttempt])
      && (r.Failed? ==> t.world.failed || !complete)
  {
    WaitAndMarkTells(s);
    if complete { ReapKeepsExit(s); }
    hide WaitAndMark, Inv;
  }

  // ---------------------------------------------------------------- a whole cleanup

  /** What a cleanup that began in `s` and ended with `r` in `t` tells: it reports an error only after a
      failed call or an incomplete polling. */
  predicate CleanedTells(s: State, r: Call<()>, t: State) {
    Later(s, r.Interrupted?, t) && (r.Failed? ==> t.world.failed || t.world.gaveUp > 0)
  }

  /** The signals of a cleanup that was neither interrupted nor had a failing call, and the reap after. */
  predicate CleanedLog(s: State, signum: int, r: Call<()>, t: State) {
    !r.Interrupted? && !t.world.failed ==>
      t.world.log == s.world.log + (if !s.child.signalAllowed then []
                                    else if t.world.gaveUp == s.world.gaveUp then [GroupSignal(signum)]
                                    else [GroupSignal(signum), GroupSignal(SIGKILL)]) + [ReapAttempt]
  }

  lemma SignalAndReapTells(s: State, signum: int, timeout: nat, failure: bool)
    requires Inv(s) && !s.child.reaped && Told(s) && (failure ==> s.world.failed)
    ensures var (r, t) := SignalAndReap(s, signum, timeout, failure);
      CleanedTells(s, r, t) && CleanedLog(s, signum, r, t)
  {
    SignalAndWaitTells(s, signum, timeout, failure);
    SignalAndWaitKeeps(s, signum, timeout, failure);
    var (q, v) := SignalAndWait(s, signum, timeout, failure);
    hide Inv, LooksClosed, SignalAndWait, FinishReap, Told;
    if q.Done? {
      FinishTells(v, q.complete, q.failure, false);
    }
  }

  lemma SignalIfMembersTells(s: State, signum: int, timeout: nat, failure: bool)
    requires Inv(s) && !s.child.reaped && Told(s) && (failure ==> s.world.failed)
    ensures var (r, t) := SignalIfMembers(s, signum, timeout, failure);
      && CleanedTells(s, r, t)
      && (if Look(s.world).0 == Returned(false) && s.child.observed.Some?
          then !r.Interrupted? ==> t.world.log == s.world.log + [ReapAttempt]
          else CleanedLog(s, signum, r, t))
  {
    LookKeeps(s);
    LookTells(s);
    var (l, w) := Look(s.world);
    var t := s.(world := w);
    if !l.Interrupted? {
      if l == Returned(false) && t.child.observed.Some? {
        FinishTells(t, true, failure, true);
      } else {
        SignalAndReapTells(t, signum, timeout, failure || l.Failed?);
      }
    }
    hide Inv, SignalAndReap, FinishReap, Look, Told;
  }

  lemma CleanAndReapTells(s: State, signum: int, timeout: nat, onlyIfMembers: bool)
    requires Inv(s) && Told(s)
    ensures var (r, t) := CleanAndReap(s, signum, timeout, onlyIfMembers);
      && CleanedTells(s, r, t)
      && (!s.child.reaped && !onlyIfMembers ==> CleanedLog(s, signum, r, t))
  {
    if !s.child.reaped {
      ObserveKeeps(s);
      ObserveTells(s);
      var (o, t) := ObserveExit(s);
      hide Inv, ObserveExit, SignalIfMembers, SignalAndReap, Told;
      if !o.Interrupted? {
        if onlyIfMembers {
          SignalIfMembersTells(t, signum, timeout, o.Failed?);
        } else {
          SignalAndReapTells(t, signum, timeout, o.Failed?);
        }
      }
    }
  }

  lemma EnsureClosedTells(s: State, timeout: nat)
    requires Inv(s) && Told(s)
    ensures var (r, t) := EnsureClosed(s, timeout); CleanedTells(s, r, t)
    ensures s.child.observed.Some? ==> var (r, t) := CloseRemainingTree(s, timeout); CleanedTells(s, r, t)
  {
    CleanAndReapTells(s, SIGTERM, timeout, true);
    CleanAndReapTells(s, SIGTERM, timeout, false);
    hide CleanAndReap, Inv;
  }

  // ---------------------------------------------------------------- the driver

  lemma {:induction false} WaitChildTells(s: State)
    requires Inv(s) && !s.child.reaped && Told(s)
    ensures var (e, t) := WaitChild(s);
      && Later(s, e.Signalled?, t) && Silent(s, t) && t.child.signalAllowed == s.child.signalAllowed
      && (e.Errored? ==> t.world.failed) && (e.Hung? ==> t.world.script == [])
    decreases |s.world.script|
  {
    if s.child.observed.None? && s.world.script != [] {
      ObserveKeeps(s);
      ObserveTells(s);
      var (r, t) := ObserveExit(s);
      hide Inv, Told;
      if r == Returned(false) { WaitChildTells(t); }
    }
  }

  lemma BodyTells(s: State)
    requires Inv(s) && !s.child.reaped && !s.world.cutShort.Some? && Told(s)
    ensures var (e, t) := Body(s);
      && Later(s, e.Signalled?, t)
      && (e.Errored? ==> t.world.failed || t.world.gaveUp > 0)
      && (e.Hung? ==> t.world.script == [] && t.world.log == s.world.log && !t.child.reaped)
  {
    hide Inv, CloseRemainingTree, EnsureClosed, WaitChild, Told;
    WaitChildTells(s);
    WaitChildKeeps(s);
    var (e, t) := WaitChild(s);
    if e.Finished? {
      EnsureClosedTells(t, TIMEOUT);
      var (r, u) := CloseRemainingTree(t, TIMEOUT);
      LaterTwice(s, t, r.Interrupted?, u);
    }
  }

  lemma BeginCleanupTells(s: State)
    requires Told(s) && Inv(s)
    ensures var t := BeginCleanup(s);
      Told(t) && Inv(t) && t.child == s.child && t.world == s.world.(waiting := false)
  {}

  lemma CloseTells(s: State, outcome: Outcome)
    requires Inv(s) && Told(s)
    ensures var (o, t) := Close(s, outcome);
      && t.world.raisedAt == s.world.raisedAt && s.world.log <= t.world.log
      && (s.world.failed ==> t.world.failed) && s.world.gaveUp <= t.world.gaveUp
      && (o != outcome ==> o == SupervisionError && (t.world.failed || t.world.gaveUp > 0))
  {
    BeginCleanupTells(s);
    EnsureClosedTells(BeginCleanup(s), TIMEOUT);
    NotWaitingIsNotInterrupted(BeginCleanup(s));
    hide EnsureClosed, Inv;
  }

  lemma NotWaitingIsNotInterrupted(s: State)
    requires Inv(s) && !s.world.waiting
    ensures !EnsureClosed(s, TIMEOUT).0.Interrupted?
  {
    EnsureClosedKeeps(s, TIMEOUT);
    hide EnsureClosed;
  }

  // The state in which the driver finds a child it has just started.
  function Launched(script: seq<Reply>): State { Started.(world := Started.world.(script := script)) }

  // The handler of a forwarded signal, and the `finally` after it.
  function Forwarded(s: State, signum: int): (Outcome, State) {
    var (r, u) := CleanAndReap(BeginCleanup(s), signum, TIMEOUT, false);
    Close(u, if r.Returned? then Exit(128 + signum) else SupervisionError)
  }

  lemma ForwardedTells(s: State, signum: int)
    requires Inv(s) && Told(s) && s.world.raisedAt == Some(|s.world.log|)
    ensures var (o, t) := Forwarded(s, signum);
      && t.world.raisedAt == s.world.raisedAt && s.world.log <= t.world.log
      && (o == Exit(128 + signum) || (o == SupervisionError && (t.world.failed || t.world.gaveUp > 0)))
      && (o.Exit? && !t.world.failed && ReapAttempt !in s.world.log ==>
            |t.world.log| > |s.world.log| && t.world.log[|s.world.log|] == GroupSignal(signum))
  {
    BeginCleanupTells(s);
    var b := BeginCleanup(s);
    CleanAndReapKeeps(b, signum, TIMEOUT, false);
    CleanAndReapTells(b, signum, TIMEOUT, false);
    var (r, u) := CleanAndReap(b, signum, TIMEOUT, false);
    assert !r.Interrupted?;
    if ReapAttempt !in s.world.log { StillAllowed(s); }
    CloseTells(u, if r.Returned? then Exit(128 + signum) else SupervisionError);
    hide Inv, Told, CleanAndReap, Close, BeginCleanup;
  }

  lemma StillAllowed(s: State)
    requires Inv(s) && Told(s) && ReapAttempt !in s.world.log
    ensures s.child.signalAllowed && !s.child.reaped
  {}

  // The handler of any other error.
  function Failing(s: State): (Outcome, State) {
    if Interrupts(s.world) then Close(s.(world := Advance(s.world)), SignalEscapes)
    else
      var (_, u) := CleanAndReap(BeginCleanup(s), SIGTERM, TIMEOUT, false);
      Close(u, SupervisionError)
  }

  lemma FailingTells(s: State)
    requires Inv(s) && Told(s) && (s.world.failed || s.world.gaveUp > 0)
    ensures var (o, t) := Failing(s);
      && (o == SupervisionError || (o == SignalEscapes && t.world.raisedAt.Some?))
      && (t.world.failed || t.world.gaveUp > 0)
  {
    BeginCleanupTells(s);
    CleanAndReapKeeps(BeginCleanup(s), SIGTERM, TIMEOUT, false);
    CleanAndReapTells(BeginCleanup(s), SIGTERM, TIMEOUT, false);
    var (_, u) := CleanAndReap(BeginCleanup(s), SIGTERM, TIMEOUT, false);
    CloseTells(u, SupervisionError);
    AdvanceTells(s);
    if Interrupts(s.world) { CloseTells(s.(world := Advance(s.world)), SignalEscapes); }
    hide Inv, Told, CleanAndReap, Close, BeginCleanup;
  }

  lemma AdvanceTells(s: State)
    requires Inv(s) && Told(s)
    ensures var t := s.(world := Advance(s.world));
      && Inv(t) && Told(t) && (Interrupts(s.world) ==> t.world.raisedAt.Some?)
      && (s.world.failed ==> t.world.failed) && t.world.gaveUp == s.world.gaveUp
  {}

  /** What the driver answers. Its exit code is the status the child was reaped with unless a signal was
      raised, and then it is 128 plus that signal; the signal itself escapes only when it was raised; an
      error is reported only after a failed call or a polling that ran out of time. */
  lemma DriverAnswers(script: seq<Reply>, pending: bool, signum: int)
    ensures var (o, t) := Drive(Launched(script), pending, signum);
      && (o.Exit? ==> if t.world.raisedAt.Some? then o.code == 128 + signum else t.world.reapedWith == Some(o.code))
      && (o.SignalEscapes? ==> t.world.raisedAt.Some?)
      && (o.SupervisionError? ==> t.world.failed || t.world.gaveUp > 0)
      && (o.StillWaiting? ==> t.world.raisedAt.None? && t.world.script == [] && t.world.log == [] && !t.child.reaped)
      && (pending ==> t.world.raisedAt == Some(0))
  {
    var s := Launched(script);
    var b := s.(world := s.world.(waiting := true));
    LaunchedTells(script);
    BodyTells(b);
    BodyKeeps(b);
    hide Body, Close, CleanAndReap, Inv, Told, BeginCleanup;
    var (e, t) := if pending then (Signalled, Raised(s)) else Body(b);
    if e.Finished? {
      CloseTells(t, Exit(e.code));
      CloseKeeps(t, Exit(e.code));
    } else if e.Signalled? {
      ForwardedTells(t, signum);
    } else if e.Errored? {
      FailingTells(t);
    }
  }

  lemma LaunchedTells(script: seq<Reply>)
    ensures
      var s := Launched(script);
      var b := s.(world := s.world.(waiting := true));
      && Inv(b) && Told(b) && !b.child.reaped && b.world.cutShort.None? && b.world.log == [] && b.world.raisedAt.None?
      && Told(Raised(s)) && Inv(Raised(s)) && Raised(s).world.raisedAt == Some(0) && Raised(s).world.log == []
  {}

  /** The signal that was raised is forwarded: unless a call failed or the reap had been attempted, it is the
      next thing sent to the group. */
  lemma RaisedSignalIsForwarded(script: seq<Reply>, pending: bool, signum: int)
    requires Drive(Launched(script), pending, signum).0.Exit?
    ensures var w := Drive(Launched(script), pending, signum).1.world;
      w.raisedAt.Some? && w.raisedAt.value <= |w.log| && ReapAttempt !in w.log[..w.raisedAt.value] && !w.failed ==>
        w.raisedAt.value < |w.log| && w.log[w.raisedAt.value] == GroupSignal(signum)
  {
    var s := Launched(script);
    var b := s.(world := s.world.(waiting := true));
    LaunchedTells(script);
    BodyTells(b);
    BodyKeeps(b);
    hide Body, Close, CleanAndReap, Inv, Told, BeginCleanup;
    var (e, t) := if pending then (Signalled, Raised(s)) else Body(b);
    if e.Finished? {
      CloseTells(t, Exit(e.code));
    } else if e.Signalled? {
      ForwardedTells(t, signum);
    } else if e.Errored? {
      FailingTells(t);
    }
  }
}
