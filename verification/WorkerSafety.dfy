/** What every run of the worker step system keeps: permits, jobs and tokens are all accounted for. */
module WorkerSafety {
  import opened Wrappers
  import opened WorkerModel

  // ---------------------------------------------------------------- counting jobs

  function Bit(kind: Kind, j: Job): nat { if Is(kind, j) then 1 else 0 }

  lemma {:induction false} CountUpdate(kind: Kind, jobs: seq<Job>, i: nat, j: Job)
    requires i < |jobs|
    ensures Count(kind, jobs[i := j]) == Count(kind, jobs) - Bit(kind, jobs[i]) + Bit(kind, j)
  {
    var last := |jobs| - 1;
    if i == last {
      assert jobs[i := j][..last] == jobs[..last];
    } else {
      assert jobs[i := j][..last] == jobs[..last][i := j];
      CountUpdate(kind, jobs[..last], i, j);
    }
  }

  lemma CountAppend(kind: Kind, jobs: seq<Job>, j: Job)
    ensures Count(kind, jobs + [j]) == Count(kind, jobs) + Bit(kind, j)
  {
    assert (jobs + [j])[..|jobs|] == jobs;
  }

  lemma {:induction false} CountSplit(jobs: seq<Job>)
    ensures Count(Active, jobs) == Count(Holding, jobs) + Count(Finished, jobs)
    ensures Count(Active, jobs) + Count(Counted, jobs) == |jobs|
  {
    if jobs != [] { CountSplit(jobs[..|jobs| - 1]); }
  }

  /** Reaping drops exactly the finished jobs from `active_jobs` and none that holds a permit. */
  lemma {:induction false} CountDropFinished(jobs: seq<Job>)
    ensures var r := DropFinished(jobs);
      && Count(Holding, r) == Count(Holding, jobs) == Count(Active, r)
      && Count(Failing, r) == 0
      && Count(Counted, r) == Count(Counted, jobs) + Count(Finished, jobs)
  {
    if jobs != [] {
      var last := |jobs| - 1;
      CountDropFinished(jobs[..last]);
      assert DropFinished(jobs)[..last] == DropFinished(jobs[..last]);
    }
  }

  lemma {:induction false} CountNeverStart(jobs: seq<Job>)
    ensures var r := NeverStart(jobs);
      Count(Holding, r) == Count(Holding, jobs) && Count(Active, r) == Count(Active, jobs)
  {
    if jobs != [] {
      var last := |jobs| - 1;
      CountNeverStart(jobs[..last]);
      assert NeverStart(jobs)[..last] == NeverStart(jobs[..last]);
    }
  }

  lemma {:induction false} CountNone(kind: Kind, jobs: seq<Job>)
    ensures Count(kind, jobs) == 0 <==> forall j | j in jobs :: !Is(kind, j)
  {
    if jobs != [] {
      CountNone(kind, jobs[..|jobs| - 1]);
      assert jobs == jobs[..|jobs| - 1] + [jobs[|jobs| - 1]];
    }
  }

  // ---------------------------------------------------------------- one worker

  /** A job succeeds only if it was acknowledged, and is not acknowledged before it has finished. */
  predicate JobOk(j: Job) {
    && (j.state.Succeeded? ==> j.acked)
    && (Is(Holding, j) ==> !j.acked && !j.stray)
    && !(j.acked && j.stray)
  }

  /** While nothing has been raised, a reaped job is one that succeeded. */
  predicate ReapedOk(j: Job) { !j.state.NeverStarted? && (j.state.Reaped? ==> j.acked) }

  predicate JobsOk(jobs: seq<Job>) { forall j | j in jobs :: JobOk(j) }

  predicate AllReapedOk(jobs: seq<Job>) { forall j | j in jobs :: ReapedOk(j) }

  /** Every permit is free, held by the loop, held by its acquire task, abandoned by a cancelled
      acquire, or held by a job that has not finished. */
  predicate Ledger(w: Worker) {
    w.free + (if w.held then 1 else 0) + Granted(w.pc) + w.orphan + Count(Holding, w.jobs) == w.config.slots
  }

  predicate Reserving(pc: Pc) { pc.ReserveWait? || pc.ReserveSettle? }

  predicate LoopHolds(w: Worker) {
    && (w.pc.Locking? || w.pc.Requeueing? || w.pc.LoopHead? || w.pc.SlotWait? ==> !w.held)
    && (w.pc.SlotSettle? ==> w.held == (w.pc.why == Use) && !(w.held && w.pc.granted))
    && (Reserving(w.pc) ==> w.held)
    && (!w.raising ==> w.orphan == 0 && !w.waiter)
  }

  predicate Bounded(w: Worker) {
    && Count(Active, w.jobs) <= w.config.slots
    && (Reserving(w.pc) ==> Count(Active, w.jobs) < w.config.slots && !Quota(w))
    && (w.config.stopAfter.Some? ==> |w.jobs| <= w.config.stopAfter.value)
  }

  predicate Unwinding(w: Worker) {
    w.raising && (w.pc.Cleanup? || w.pc.CleanupGather? || w.pc.Raised?)
  }

  predicate Idle(pc: Pc) {
    pc.Locking? || pc.Requeueing? || pc.Cleanup? || pc.CleanupGather? || pc.Returned?
  }

  predicate Ending(pc: Pc) { pc.Drain? || pc.Cleanup? || pc.CleanupGather? || pc.Returned? }

  /** The loop is left in good order only when the worker was asked to stop or has its quota. */
  predicate MayEnd(w: Worker) { w.stop || Quota(w) }

  predicate Orderly(w: Worker) {
    && (Ending(w.pc) ==> MayEnd(w))
    && !w.raising && !w.pc.Raised?
    && AllReapedOk(w.jobs) && w.processed == Count(Counted, w.jobs)
    && (Idle(w.pc) ==> Count(Active, w.jobs) == 0)
    && (w.pc.Returned? ==> w.pc.count == w.processed)
    && (w.jobFailed <==> Count(Failing, w.jobs) > 0)
    && (w.pc.FailDrain? ==> w.jobFailed)
  }

  predicate WorkerInv(w: Worker) {
    && w.config.slots >= 1
    && JobsOk(w.jobs)
    && (!w.pc.Crashed? ==> Ledger(w) && LoopHolds(w) && Bounded(w) && (Unwinding(w) || Orderly(w)))
  }

  /** What an exception may assume wherever it leaves the main block. */
  predicate MayRaise(w: Worker) {
    && w.config.slots >= 1
    && w.free + (if w.held then 1 else 0) + w.orphan + Count(Holding, w.jobs) == w.config.slots
    && Count(Active, w.jobs) <= w.config.slots
    && (w.config.stopAfter.Some? ==> |w.jobs| <= w.config.stopAfter.value)
    && JobsOk(w.jobs)
  }

  lemma UnwindKeeps(w: Worker, releases: bool)
    requires MayRaise(w)
    ensures WorkerInv(Unwind(w, releases))
  {
    hide Count;
  }

  lemma ReapKeeps(w: Worker)
    requires JobsOk(w.jobs)
    ensures JobsOk(Reap(w).jobs)
    ensures AllReapedOk(w.jobs) && !AnyFailed(w) ==> AllReapedOk(Reap(w).jobs)
    ensures MayRaise(w) ==> MayRaise(Reap(w))
  {
    hide Count;
    var r := Reap(w);
    CountDropFinished(w.jobs);
    CountSplit(w.jobs);
    CountNone(Failing, w.jobs);
    forall j | j in r.jobs
      ensures JobOk(j) && (AllReapedOk(w.jobs) && !AnyFailed(w) ==> ReapedOk(j))
    {
      var i :| 0 <= i < |r.jobs| && r.jobs[i] == j;
      assert w.jobs[i] in w.jobs;
    }
  }

  lemma LoopHeadKeeps(w: Worker)
    requires WorkerInv(w) && w.pc.LoopHead?
    ensures WorkerInv(FromLoopHead(w))
  {
    hide Count;
    if !w.stop && !Quota(w) {
      ReapKeeps(w);
      CountDropFinished(w.jobs);
      if AnyFailed(w) || w.lockLost { UnwindKeeps(Reap(w), false); }
    }
  }

  lemma AfterSlotKeeps(w: Worker)
    requires w.pc.LoopHead? && MayRaise(w) && Orderly(w) && w.orphan == 0 && !w.waiter
    ensures WorkerInv(AfterSlot(w))
  {
    hide Count;
    if w.lockLost {
      UnwindKeeps(w, false);
    } else if !w.jobFailed && !w.stop && w.held {
      ReapKeeps(w);
      CountDropFinished(w.jobs);
      if AnyFailed(w) { UnwindKeeps(Reap(w), true); }
    }
  }

  lemma SlotFinishKeeps(w: Worker)
    requires WorkerInv(w) && w.pc.SlotSettle?
    ensures WorkerInv(SlotFinish(w))
  {
    hide Count;
    var r := if w.pc.granted then w.(free := w.free + 1, pc := LoopHead) else w.(pc := LoopHead);
    if w.pc.why == Cancelled { UnwindKeeps(r, false); } else { AfterSlotKeeps(r); }
  }

  lemma ScheduleKeeps(w: Worker, token: Token)
    requires WorkerInv(w) && w.pc.ReserveSettle?
    ensures var job := Job(token, Created, false, false);
      WorkerInv(w.(jobs := w.jobs + [job], held := false, pc := LoopHead))
  {
    hide Count;
    var job := Job(token, Created, false, false);
    CountAppend(Holding, w.jobs, job);
    CountAppend(Active, w.jobs, job);
    CountAppend(Counted, w.jobs, job);
    CountAppend(Failing, w.jobs, job);
    assert Is(Holding, job) && Is(Active, job) && !Is(Counted, job);
  }

  lemma AfterReserveKeeps(w: Worker, reply: Option<Token>)
    requires WorkerInv(w) && w.pc.ReserveSettle?
    ensures WorkerInv(AfterReserve(w, reply))
  {
    hide Count;
    if w.lockLost { UnwindKeeps(w, true); }
    if reply.Some? { ScheduleKeeps(w, reply.value); }
  }

  lemma ReserveFinishKeeps(w: Worker)
    requires WorkerInv(w) && w.pc.ReserveSettle?
    ensures WorkerInv(ReserveFinish(w))
  {
    hide Count;
    var r := if w.pc.reply == Unanswered then w.(strayReserve := true) else w;
    if w.pc.why == Cancelled || (w.pc.why == Use && w.pc.reply == Broken) {
      UnwindKeeps(r, true);
    } else {
      AfterReserveKeeps(r, if w.pc.why == Use && w.pc.reply.Got? then Some(w.pc.reply.token) else None);
    }
  }

  lemma FailDrainKeeps(w: Worker)
    requires WorkerInv(w) && w.pc.FailDrain?
    ensures WorkerInv(FailDrainStep(w))
  {
    hide Count;
    ReapKeeps(w);
    CountDropFinished(w.jobs);
    UnwindKeeps(w, w.pc.releases);
    UnwindKeeps(Reap(w), w.pc.releases);
  }

  lemma DrainKeeps(w: Worker)
    requires WorkerInv(w) && w.pc.Drain?
    ensures WorkerInv(DrainStep(w))
  {
    hide Count;
    ReapKeeps(w);
    CountDropFinished(w.jobs);
    UnwindKeeps(w, false);
    UnwindKeeps(Reap(w), false);
  }

  lemma CancelSettleKeeps(w: Worker)
    requires WorkerInv(w) && (w.pc.SlotSettle? || w.pc.ReserveSettle?)
    ensures WorkerInv(CancelLoop(w))
  {
    hide Count;
    if w.pc.SlotSettle? {
      UnwindKeeps(w.(orphan := w.orphan + Granted(w.pc), waiter := w.pc.why != Use && !w.pc.granted), false);
    } else {
      UnwindKeeps(w.(strayReserve := w.pc.reply == Unanswered), true);
    }
  }

  lemma CancelKeeps(w: Worker)
    requires WorkerInv(w)
    ensures WorkerInv(CancelLoop(w))
  {
    hide Count;
    if w.pc.SlotSettle? || w.pc.ReserveSettle? {
      CancelSettleKeeps(w);
    } else if w.pc.Requeueing? || w.pc.Drain? {
      UnwindKeeps(w, false);
    } else if w.pc.FailDrain? {
      UnwindKeeps(w, w.pc.releases);
    }
  }

  lemma CancelInsideTry(w: Worker)
    requires w.pc.ReserveSettle? || (w.pc.FailDrain? && w.pc.releases)
    ensures var r := CancelLoop(w); !r.held && r.free == w.free + (if w.held then 1 else 0) && r.orphan == w.orphan
  {}

  lemma CancelInSlotSettle(w: Worker)
    requires w.pc.SlotSettle?
    ensures var r := CancelLoop(w);
      r.held == w.held && r.free == w.free && r.orphan == w.orphan + (if w.pc.granted then 1 else 0)
  {}

  lemma CancelInWait(w: Worker)
    requires w.pc.Locking? || w.pc.Requeueing? || w.pc.SlotWait? || w.pc.ReserveWait? || w.pc.Drain?
          || (w.pc.FailDrain? && !w.pc.releases)
    ensures var r := CancelLoop(w); r.held == w.held && r.free == w.free && r.orphan == w.orphan
  {}

  lemma CancelNothing(w: Worker)
    requires !w.pc.Locking? && !w.pc.Requeueing? && !w.pc.SlotWait? && !w.pc.ReserveWait? && !w.pc.Drain? && !w.pc.FailDrain?
    requires !w.pc.SlotSettle? && !w.pc.ReserveSettle?
    ensures CancelLoop(w) == w
  {}

  /** A cancellation of the loop, wherever it waits, keeps the ledger. Inside the inner `try` it gives
      back the permit the loop holds; in the `finally` of the slot wait that permit stays taken, and one
      granted to the acquire task is abandoned; elsewhere no permit moves. */
  lemma CancelLoopKeeps(w: Worker)
    requires WorkerInv(w)
    ensures var r := CancelLoop(w);
      && WorkerInv(r)
      && if w.pc.ReserveSettle? || (w.pc.FailDrain? && w.pc.releases)
         then !r.held && r.free == w.free + (if w.held then 1 else 0) && r.orphan == w.orphan
         else r.held == w.held && r.free == w.free
              && r.orphan == w.orphan + (if w.pc.SlotSettle? && w.pc.granted then 1 else 0)
  {
    hide WorkerInv, CancelLoop;
    CancelKeeps(w);
    if w.pc.ReserveSettle? || (w.pc.FailDrain? && w.pc.releases) {
      CancelInsideTry(w);
    } else if w.pc.SlotSettle? {
      CancelInSlotSettle(w);
    } else if w.pc.LoopHead? || w.pc.Cleanup? || w.pc.CleanupGather? || !Live(w) {
      CancelNothing(w);
    } else {
      CancelInWait(w);
    }
  }

  lemma CancelJobsKeeps(w: Worker)
    requires WorkerInv(w) && w.pc.Cleanup?
    ensures WorkerInv(CancelJobs(w))
  {
    hide Count;
    CountNeverStart(w.jobs);
    var r := CancelJobs(w);
    CountNone(Active, w.jobs);
    forall j | j in r.jobs
      ensures JobOk(j) && (Orderly(w) ==> ReapedOk(j))
    {
      var i :| 0 <= i < |r.jobs| && r.jobs[i] == j;
      assert w.jobs[i] in w.jobs;
    }
    if Orderly(w) {
      forall i | 0 <= i < |w.jobs| ensures r.jobs[i] == w.jobs[i] { assert w.jobs[i] in w.jobs; }
      assert r.jobs == w.jobs;
    }
  }

  lemma CrashKeeps(w: Worker)
    requires WorkerInv(w) && Live(w)
    ensures WorkerInv(Crash(w))
  {
    forall j | j in Crash(w).jobs ensures JobOk(j) {
      var i :| 0 <= i < |w.jobs| && Crash(w).jobs[i] == j;
      assert w.jobs[i] in w.jobs;
    }
  }

  lemma SetJobKeeps(w: Worker, i: nat, job: Job)
    requires WorkerInv(w) && Live(w) && i < |w.jobs| && Is(Holding, w.jobs[i])
    requires JobOk(job) && !job.state.NeverStarted? && !job.state.Reaped?
    ensures WorkerInv(SetJob(w, i, job))
  {
    hide Count;
    CountUpdate(Holding, w.jobs, i, job);
    CountUpdate(Active, w.jobs, i, job);
    CountUpdate(Counted, w.jobs, i, job);
    CountUpdate(Failing, w.jobs, i, job);
  }

  lemma GrantWaitKeeps(w: Worker, pc: Pc)
    requires WorkerInv(w) && w.free > 0 && Granted(w.pc) == 0 && Granted(pc) == 1
    requires (w.pc.SlotWait? && pc.SlotWait?) || (w.pc.SlotSettle? && pc.SlotSettle? && pc.why == w.pc.why && pc.why != Use)
    ensures WorkerInv(w.(free := w.free - 1, pc := pc))
  {
    hide Count, JobsOk, AllReapedOk;
  }

  lemma GrantOrphanKeeps(w: Worker)
    requires WorkerInv(w) && w.free > 0 && w.waiter
    ensures WorkerInv(w.(free := w.free - 1, waiter := false, orphan := w.orphan + 1))
  {
    hide Count, JobsOk, AllReapedOk;
  }

  lemma GrantKeeps(w: Worker)
    requires WorkerInv(w)
    ensures WorkerInv(EventStep(w, GrantSlot))
  {
    if w.free > 0 {
      if w.pc.SlotWait? && !w.pc.granted {
        GrantWaitKeeps(w, SlotWait(true));
      } else if w.pc.SlotSettle? && !w.pc.granted && w.pc.why != Use {
        GrantWaitKeeps(w, SlotSettle(true, w.pc.why));
      } else if w.waiter {
        GrantOrphanKeeps(w);
      }
    }
    hide WorkerInv;
  }

  lemma DecideKeeps(w: Worker, ok: bool)
    requires WorkerInv(w)
    ensures WorkerInv(EventStep(w, SlotDecide)) && WorkerInv(EventStep(w, ReserveDecide))
    ensures WorkerInv(EventStep(w, ReserveTimesOut(ok)))
  {
    hide Count, JobsOk, AllReapedOk;
  }

  lemma FlagKeeps(w: Worker, stop: bool, lockLost: bool)
    requires WorkerInv(w) && (w.stop ==> stop)
    ensures WorkerInv(w.(stop := stop, lockLost := lockLost))
  {
    hide Count, JobsOk, AllReapedOk;
  }

  lemma EventKeeps(w: Worker, event: Event)
    requires WorkerInv(w)
    ensures WorkerInv(EventStep(w, event))
  {
    FlagKeeps(w, true, w.lockLost);
    FlagKeeps(w, w.stop, true);
    GrantKeeps(w);
    DecideKeeps(w, event.ReserveTimesOut? && event.ok);
    hide WorkerInv;
    if event.StopSignal? && Live(w) {
      assert EventStep(w, event) == w.(stop := true, lockLost := w.lockLost);
    } else if event.HeartbeatFails? && Live(w) && !w.pc.Locking? {
      assert EventStep(w, event) == w.(stop := w.stop, lockLost := true);
    }
  }

  /** The worker's own part of a Redis command: where its coroutine stands afterwards. */
  lemma PcKeeps(w: Worker, pc: Pc)
    requires WorkerInv(w)
    requires (w.pc.Locking? && pc.Requeueing?) || (w.pc.Requeueing? && pc.LoopHead?)
          || (w.pc.ReserveWait? && pc.ReserveWait?) || (w.pc.ReserveSettle? && pc.ReserveSettle?)
    ensures WorkerInv(w.(pc := pc))
  {
    hide Count, JobsOk, AllReapedOk;
  }

  lemma LockRefusedKeeps(w: Worker)
    requires WorkerInv(w) && w.pc.Locking?
    ensures WorkerInv(w.(pc := Raised, raising := true))
  {
    hide Count, JobsOk, AllReapedOk;
  }

  lemma CloseKeeps(w: Worker)
    requires WorkerInv(w) && w.pc.CleanupGather?
    ensures WorkerInv(w.(pc := if w.raising then Raised else Returned(w.processed)))
  {
    hide Count, JobsOk, AllReapedOk;
  }
}
