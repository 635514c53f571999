/**
  `run_worker` and `_execute_reserved_job` in their own form: one object holding the worker's
  locals, one method per stretch of code between two awaits, statement by statement. Each method is
  proved equal to the step of `WorkerModel` that the safety theorems are about, and keeps the ledger.
*/
module WorkerLoop {
  import opened Wrappers
  import opened WorkerModel
  import opened WorkerSafety

  // The worker once the `finally` of the slot wait has run.
  function Settled(w: Worker): Worker
    requires w.pc.SlotSettle?
  {
    w.(pc := LoopHead, free := if w.pc.granted then w.free + 1 else w.free)
  }

  lemma SlotFinishIs(w: Worker)
    requires w.pc.SlotSettle?
    ensures SlotFinish(w) == if w.pc.why == Cancelled then Unwind(Settled(w), false) else AfterSlot(Settled(w))
  {
    hide AfterSlot, Unwind;
  }

  // The worker once the `finally` of the reserve wait has run.
  function Dropped(w: Worker): Worker
    requires w.pc.ReserveSettle?
  {
    w.(strayReserve := w.strayReserve || w.pc.reply.Unanswered?)
  }

  lemma ReserveFinishIs(w: Worker)
    requires w.pc.ReserveSettle?
    ensures
      ReserveFinish(w) ==
        if w.pc.why.Cancelled? || (w.pc.why.Use? && w.pc.reply.Broken?) then Unwind(Dropped(w), true)
        else AfterReserve(Dropped(w), if w.pc.why.Use? && w.pc.reply.Got? then Some(w.pc.reply.token) else None)
  {
    hide AfterReserve, Unwind;
  }

  lemma AckJobIs(w: Worker, i: nat, acknowledged: bool)
    requires i < |w.jobs|
    ensures AckJob(w, i, acknowledged, true) ==
      if acknowledged then SetJob(w, i, w.jobs[i].(state := Succeeded, acked := true)) else FailJob(w.(lockLost := true), i)
  {}

  class WorkerProcess {
    const config: Config
    var pc: Pc
    var slots: nat              // job_slots, the semaphore's value
    var slotHeld: bool          // slot_acquired and not slot_transferred
    var orphan: nat
    var waiter: bool
    var strayReserve: bool
    var stopRequested: bool
    var lockLost: bool
    var jobFailed: bool
    var raising: bool
    var processed: nat
    var jobs: seq<Job>

    ghost function State(): Worker
      reads this
    {
      Worker(config, pc, slots, slotHeld, orphan, waiter, strayReserve, stopRequested, lockLost, jobFailed, raising, processed, jobs)
    }

    constructor (config: Config)
      ensures State() == NewWorker(config)
      ensures config.slots >= 1 ==> WorkerInv(State())
    {
      this.config := config;
      pc, slots, slotHeld, orphan, waiter, strayReserve := Locking, config.slots, false, 0, false, false;
      stopRequested, lockLost, jobFailed, raising := false, false, false, false;
      processed, jobs := 0, [];
    }

    /** `_reap_jobs(wait=False)`: the finished tasks leave the set first, then their results are looked
        at, so an error forgets the count of the tasks reaped together with it. */
    method ReapJobs() returns (raised: bool)
      modifies this`jobs, this`processed
      ensures State() == Reap(old(State()))
      ensures raised == AnyFailed(old(State()))
    {
      var active := jobs;
      var completed, failures, i := 0, 0, 0;
      while i < |active|
        invariant i <= |active| && |jobs| == |active|
        invariant forall k | 0 <= k < |active| ::
          jobs[k] == if k < i && Is(Finished, active[k]) then active[k].(state := Reaped) else active[k]
        invariant completed == Count(Finished, active[..i]) && failures == Count(Failing, active[..i])
        invariant processed == old(processed)
      {
        assert active[..i + 1][..i] == active[..i];
        if active[i].state.Succeeded? || active[i].state.Failed? {
          jobs := jobs[i := active[i].(state := Reaped)];
          completed := completed + 1;
          if active[i].state.Failed? { failures := failures + 1; }
        }
        i := i + 1;
      }
      assert active[..i] == active;
      assert jobs == DropFinished(active);
      raised := failures > 0;
      if !raised { processed := processed + completed; }
    }

    /** Leaving the main block with an exception; the inner `finally` releases a slot still held. */
    method Leave(insideTry: bool)
      modifies this
      ensures State() == Unwind(old(State()), insideTry)
    {
      if insideTry { ReleaseSlot(); }
      raising := true;
      pc := Cleanup;
    }

    method ReleaseSlot()
      modifies this`slots, this`slotHeld
      ensures slots == (if old(slotHeld) then old(slots) + 1 else old(slots)) && !slotHeld
    {
      if slotHeld { slots, slotHeld := slots + 1, false; }
    }

    /** The `while` test and lines 264-268, up to the wait for a slot. */
    method LoopHeadSegment()
      requires pc.LoopHead? && WorkerInv(State())
      modifies this
      ensures State() == FromLoopHead(old(State())) && WorkerInv(State())
    {
      hide WorkerInv;
      LoopHeadKeeps(State());
      if stopRequested || (config.stopAfter.Some? && |jobs| >= config.stopAfter.value) {
        pc := Drain;
        return;
      }
      var raised := ReapJobs();
      if raised || lockLost {
        Leave(false);
      } else if jobFailed {
        pc := FailDrain(false);
      } else {
        pc := SlotWait(false);
      }
    }

    /** The `finally` of `_acquire_job_slot_or_signal`: a permit that was granted but not taken goes back. */
    method GiveBackGranted()
      requires pc.SlotSettle?
      modifies this`pc, this`slots
      ensures State() == Settled(old(State()))
    {
      if pc.granted { slots := slots + 1; }
      pc := LoopHead;
    }

    /** The end of the slot wait, and what follows it. */
    method SettleSlot()
      requires pc.SlotSettle? && WorkerInv(State())
      modifies this
      ensures State() == SlotFinish(old(State())) && WorkerInv(State())
    {
      hide WorkerInv, AfterSlot, Unwind, SlotFinish, Settled;
      SlotFinishKeeps(State());
      SlotFinishIs(State());
      var cancelled := pc.why == Cancelled;
      GiveBackGranted();
      if cancelled { Leave(false); } else { SlotSegment(); }
    }

    /** Lines 276-293, up to the reservation. */
    method SlotSegment()
      modifies this
      ensures State() == AfterSlot(old(State()))
    {
      if lockLost {
        Leave(false);
      } else if jobFailed {
        pc := FailDrain(false);
      } else if stopRequested {
        pc := Drain;
      } else if !slotHeld {
        pc := LoopHead;
      } else {
        var raised := ReapJobs();
        if raised {
          Leave(true);
        } else if config.stopAfter.Some? && |jobs| >= config.stopAfter.value {
          ReleaseSlot();
          pc := Drain;
        } else {
          pc := ReserveWait(Unanswered);
        }
      }
    }

    /** The end of `_reserve_or_signal`: after a signal the reservation is dropped, not scheduled. */
    method SettleReserve()
      requires pc.ReserveSettle? && WorkerInv(State())
      modifies this
      ensures State() == ReserveFinish(old(State())) && WorkerInv(State())
    {
      hide WorkerInv, AfterReserve, Unwind, ReserveFinish, Dropped;
      ReserveFinishKeeps(State());
      ReserveFinishIs(State());
      var reply, why := pc.reply, pc.why;
      DropReservation();
      if why.Cancelled? || (why.Use? && reply.Broken?) {
        Leave(true);
      } else {
        ReserveSegment(if why.Use? && reply.Got? then Some(reply.token) else None);
      }
    }

    // The `finally` cancels the reserve task; a command without an answer may still reach the server.
    method DropReservation()
      requires pc.ReserveSettle?
      modifies this`strayReserve
      ensures State() == Dropped(old(State()))
    {
      if pc.reply.Unanswered? { strayReserve := true; }
    }

    /** Lines 300-323. */
    method ReserveSegment(reserved: Option<Token>)
      modifies this
      ensures State() == AfterReserve(old(State()), reserved)
    {
      if lockLost {
        Leave(true);
      } else if jobFailed {
        pc := FailDrain(true);
      } else if stopRequested {
        ReleaseSlot();
        pc := Drain;
      } else if reserved.None? {
        ReleaseSlot();
        pc := LoopHead;
      } else {
        jobs := jobs + [Job(reserved.value, Created, false, false)];
        slotHeld := false;
        pc := LoopHead;
      }
    }

    /** One round of the drain loop of lines 325-331, and what follows it. */
    method DrainSegment()
      requires pc.Drain? && WorkerInv(State())
      modifies this
      ensures State() == DrainStep(old(State())) && WorkerInv(State())
    {
      hide WorkerInv;
      DrainKeeps(State());
      if lockLost {
        Leave(false);
        return;
      }
      if Count(Active, jobs) == 0 {
        pc := Cleanup;
        return;
      }
      var raised := ReapJobs();
      if raised { Leave(false); }
    }

    /** `except BaseException` and `finally` of `_execute_reserved_job`. */
    method FailTask(i: nat)
      requires WorkerInv(State()) && Live(State()) && i < |jobs| && Is(Holding, jobs[i])
      modifies this`jobs, this`jobFailed, this`slots
      ensures State() == FailJob(old(State()), i) && WorkerInv(State())
    {
      assert jobs[i] in jobs;
      SetJobKeeps(State(), i, jobs[i].(state := Failed));
      hide WorkerInv;
      jobFailed := true;
      jobs := jobs[i := jobs[i].(state := Failed)];
      slots := slots + 1;
    }

    /** The acknowledgement came back: lines 56-66. */
    method AckReply(i: nat, acknowledged: bool)
      requires WorkerInv(State()) && Live(State()) && i < |jobs| && jobs[i].state.Acking?
      modifies this
      ensures State() == AckJob(old(State()), i, acknowledged, true) && WorkerInv(State())
    {
      hide WorkerInv, FailJob, AckJob;
      AckJobIs(State(), i, acknowledged);
      if acknowledged {
        SucceedTask(i);
      } else {
        FlagKeeps(State(), stopRequested, true);
        lockLost := true;
        FailTask(i);
      }
    }

    method SucceedTask(i: nat)
      requires WorkerInv(State()) && Live(State()) && i < |jobs| && Is(Holding, jobs[i])
      modifies this`jobs, this`slots
      ensures State() == SetJob(old(State()), i, old(jobs[i]).(state := Succeeded, acked := true)) && WorkerInv(State())
    {
      assert jobs[i] in jobs;
      SetJobKeeps(State(), i, jobs[i].(state := Succeeded, acked := true));
      hide WorkerInv;
      jobs := jobs[i := jobs[i].(state := Succeeded, acked := true)];
      slots := slots + 1;
    }
  }
}
