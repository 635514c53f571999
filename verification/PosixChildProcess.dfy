/** `_PosixChild` as the object it is: its methods update its fields in the source's order, and each is
    proved equal to the step the theorems of `PosixCleanup` are about. */
module PosixChildProcess {
  import opened Wrappers
  import opened PosixChild
  import opened PosixCleanup

  class PosixProcess {
    var observedExitCode: Option<int>
    var directReaped: bool
    var groupSignalAllowed: bool
    var cleanupError: bool
    var world: World            // the operating system, reached through system calls only

    ghost function Now(): State
      reads this
    {
      State(Child(observedExitCode, directReaped, groupSignalAllowed, cleanupError), world)
    }

    constructor (world: World)
      ensures Now() == State(Child(None, false, true, false), world)
      ensures world.reaps == 0 && world.cutShort.None? && world.log == [] ==> Inv(Now())
    {
      observedExitCode, directReaped, groupSignalAllowed, cleanupError := None, false, true, false;
      this.world := world;
    }

    /** `_signal_group`, with `_validate_process_group` first. */
    method SignalTheGroup(signum: int) returns (r: Call<()>)
      modifies this`world
      ensures (r, Now()) == SignalGroup(old(Now()), signum)
    {
      if !groupSignalAllowed || directReaped { return Returned(()); }
      var interrupted, fails := Interrupts(world), Next(world).fails;
      world := Advance(world);
      if interrupted { return Interrupted; }
      if fails { return Failed; }
      var sent := Kill(world, signum);
      r, world := sent.0, sent.1;
    }

    /** `_observe_exit(nohang=True)`. */
    method Observe() returns (r: Call<bool>)
      modifies this`world, this`observedExitCode
      ensures (r, Now()) == ObserveExit(old(Now()))
    {
      if observedExitCode.Some? { return Returned(true); }
      var reply := WaitId(world);
      world := reply.1;
      match reply.0
      case Interrupted => r := Interrupted;
      case Failed => r := Failed;
      case Returned(None) => r := Returned(false);
      case Returned(Some(code)) =>
        observedExitCode := Some(code);
        r := Returned(true);
    }

    /** The `try` of the polling loop. */
    method Poll() returns (p: Poll)
      modifies this`world, this`observedExitCode
      ensures (p, Now()) == PollOnce(old(Now()))
    {
      var o := Observe();
      if o.Interrupted? { return Broken; }
      if o.Failed? { return Seen(false, true, true); }
      var look := Look(world);
      world := look.1;
      match look.0
      case Interrupted => p := Broken;
      case Failed => p := Seen(false, true, true);
      case Returned(others) => p := Seen(o.value, others, false);
    }

    // History: a polling ran out of time.
    method RecordGivingUp()
      modifies this`world
      ensures Now() == GiveUp(old(Now()))
    {
      world := world.(gaveUp := world.gaveUp + 1);
    }

    /** `_wait_for_owned_tree_exit`. */
    method WaitForOwnedTreeExit(deadline: int, failure: bool) returns (q: Waited)
      requires Inv(Now()) && !directReaped
      modifies this`world, this`observedExitCode
      ensures (q, Now()) == WaitForTree(old(Now()), deadline, failure)
      ensures Inv(Now()) && (q.Done? ==> (q.complete <==> LooksClosed(Now())))
    {
      WaitForTreeKeeps(Now(), deadline, failure);
      hide Inv, LooksClosed;
      hide PollOnce, Sleep, GiveUp;
      var failed := failure;
      while true
        invariant WaitForTree(Now(), deadline, failed) == WaitForTree(old(Now()), deadline, failure)
        decreases deadline - world.clock
      {
        var p := Poll();
        if p.Broken? { return Torn; }
        failed := failed || p.failed;
        if p.exited && !p.others { return Done(true, failed); }
        var remaining := deadline - world.clock;
        if remaining <= 0 {
          RecordGivingUp();
          return Done(false, failed);
        }
        var slept := Sleep(world, Min(POLL, remaining));
        world := slept.1;
        if slept.0.Interrupted? { return Torn; }
      }
    }

    /** `_wait_and_mark_direct_reaped`. */
    method WaitAndMarkReaped() returns (r: Reap)
      modifies this
      ensures (r, Now()) == WaitAndMark(old(Now()))
    {
      var early := Interrupts(world);
      world := Advance(world);
      if early { return ReapInterrupted; }
      groupSignalAllowed := false;
      var late, fails := Interrupts(world), Next(world).fails;
      var w := Advance(world.(log := world.log + [ReapAttempt]));
      world := w;
      if !fails && w.exit.Some? && w.reaps == 0 {
        directReaped := true;
        world := world.(reaps := 1, reapedWith := w.exit);
        r := Code(w.exit.value);
      } else {
        r := if fails then ReapFailed else StillRunning;
      }
      if late { r := ReapInterrupted; }
    }

    /** The end of `_clean_and_reap`, from its second-last `if` on. */
    method ReapAndReport(complete: bool, failure: bool, shortcut: bool) returns (r: Call<()>)
      modifies this
      ensures (r, Now()) == FinishReap(old(Now()), complete, failure, shortcut)
    {
      var expected := observedExitCode;
      var reap := WaitAndMarkReaped();
      if reap.ReapInterrupted? {
        if directReaped { world := world.(cutShort := Some(complete)); }
        return Interrupted;
      }
      if failure || !complete || expected.None? || reap != Code(expected.value) {
        if directReaped || shortcut { cleanupError := true; }
        return Failed;
      }
      r := Returned(());
    }

    /** `_clean_and_reap`. */
    method CleanUp(signum: int, timeout: nat, onlyIfMembers: bool) returns (r: Call<()>)
      requires Inv(Now())
      modifies this
      ensures (r, Now()) == CleanAndReap(old(Now()), signum, timeout, onlyIfMembers)
      ensures Cleaned(old(Now()), r, Now()) && world.slept - old(world.slept) <= 2 * timeout
    {
      CleanAndReapKeeps(Now(), signum, timeout, onlyIfMembers);
      if !directReaped { ObserveKeeps(Now()); }
      hide Inv, Cleaned, ObserveExit, SignalIfMembers, SignalAndReap;
      if directReaped { return if cleanupError then Failed else Returned(()); }
      var o := Observe();
      if o.Interrupted? { return Interrupted; }
      if onlyIfMembers {
        r := SignalTreeIfMembers(signum, timeout, o.Failed?);
      } else {
        r := SignalAndReapTree(signum, timeout, o.Failed?);
      }
    }

    /** With `signal_only_if_members`, a group found empty is not signalled. */
    method SignalTreeIfMembers(signum: int, timeout: nat, failure: bool) returns (r: Call<()>)
      requires Inv(Now()) && !directReaped
      modifies this
      ensures (r, Now()) == SignalIfMembers(old(Now()), signum, timeout, failure)
    {
      LookKeeps(Now());
      hide Inv, FinishReap, SignalAndReap, Look;
      var look := Look(world);
      world := look.1;
      if look.0.Interrupted? { return Interrupted; }
      if look.0 == Returned(false) && observedExitCode.Some? {
        r := ReapAndReport(true, failure, true);
      } else {
        r := SignalAndReapTree(signum, timeout, failure || look.0.Failed?);
      }
    }

    method SignalAndPoll(signum: int, timeout: nat, failure: bool) returns (q: Waited)
      requires Inv(Now()) && !directReaped
      modifies this
      ensures (q, Now()) == SignalThenPoll(old(Now()), signum, timeout, failure)
    {
      SignalGroupKeeps(Now(), signum);
      hide Inv;
      var sent := SignalTheGroup(signum);
      if sent.Interrupted? { return Torn; }
      q := WaitForOwnedTreeExit(world.clock + timeout, failure || sent.Failed?);
    }

    method SignalAndReapTree(signum: int, timeout: nat, failure: bool) returns (r: Call<()>)
      requires Inv(Now()) && !directReaped
      modifies this
      ensures (r, Now()) == SignalAndReap(old(Now()), signum, timeout, failure)
    {
      SignalThenPollKeeps(Now(), signum, timeout, failure);
      hide Inv, LooksClosed;
      var q := SignalAndPoll(signum, timeout, failure);
      if q.Done? && !q.complete { q := SignalAndPoll(SIGKILL, timeout, q.failure); }
      if q.Torn? { return Interrupted; }
      r := ReapAndReport(q.complete, q.failure, false);
    }

    /** `ensure_closed`, with `close_remaining_tree` for an observed child. */
    method EnsureTreeClosed(timeout: nat) returns (r: Call<()>)
      requires Inv(Now())
      modifies this
      ensures (r, Now()) == EnsureClosed(old(Now()), timeout)
      ensures Cleaned(old(Now()), r, Now()) && world.slept - old(world.slept) <= 2 * timeout
    {
      EnsureClosedKeeps(Now(), timeout);
      hide Inv, Cleaned;
      if directReaped { return if cleanupError then Failed else Returned(()); }
      r := CleanUp(SIGTERM, timeout, observedExitCode.Some?);
    }
  }
}
