/** What the worker does, beside what it keeps: it schedules what it is given, polls again when there is
    nothing, schedules nothing once signalled, and raises for a reason. */
module WorkerProgress {
  import opened Wrappers
  import opened WorkerModel
  import opened WorkerSafety
  import opened WorkerRuns

  // ---------------------------------------------------------------- a turn of the loop

  // From the loop head to the poll, with a permit free and no signal.
  function ToPoll(id: WorkerId): seq<Action> {
    [Resume(id, Head), Happens(id, GrantSlot), Happens(id, SlotDecide), Resume(id, SlotReturn)]
  }

  function IdleTurn(id: WorkerId): seq<Action> {
    ToPoll(id) + [Happens(id, ReserveTimesOut(true)), Happens(id, ReserveDecide), Resume(id, ReserveReturn)]
  }

  function BusyTurn(id: WorkerId): seq<Action> {
    ToPoll(id) + [Commands(id, ReserveTakes(true)), Happens(id, ReserveDecide), Resume(id, ReserveReturn)]
  }

  function WorkOff(id: WorkerId, job: nat): seq<Action> {
    [JobSteps(id, job, Starts), JobSteps(id, job, Returns), Acks(id, job, Ack(true))]
  }

  /** A worker at its loop head that nothing stops from polling. */
  predicate Ready(w: Worker) {
    WorkerInv(w) && w.pc.LoopHead? && !AnySignal(w) && !Quota(w) && w.free > 0
  }

  // The worker once it has looked twice for finished jobs.
  function Reaped(w: Worker): Worker { Reap(Reap(w)) }

  function Polling(w: Worker, reply: Reservation): Worker
    requires w.free > 0
  {
    Reaped(w).(free := w.free - 1, held := true, pc := ReserveWait(reply))
  }

  lemma {:induction false} RunConcat(s: System, a: seq<Action>, b: seq<Action>)
    ensures Run(s, a + b) == Run(Run(s, a), b)
    decreases |a|
  {
    hide Step;
    if a == [] {
      assert a + b == b;
    } else {
      assert (a + b)[1..] == a[1..] + b;
      RunConcat(Step(s, a[0]), a[1..], b);
    }
  }

  lemma RunThree(s: System, a: seq<Action>)
    requires |a| == 3
    ensures Run(s, a) == Step(Step(Step(s, a[0]), a[1]), a[2])
  {
    hide Step;
    var t := Step(s, a[0]);
    var u := Step(t, a[1]);
    assert a[1..][0] == a[1] && a[1..][1..][0] == a[2] && a[1..][1..][1..] == [];
    assert Run(u, a[1..][1..]) == Step(u, a[2]);
    assert Run(t, a[1..]) == Run(u, a[1..][1..]);
  }

  lemma RunFour(s: System, a: seq<Action>)
    requires |a| == 4
    ensures Run(s, a) == Step(Step(Step(Step(s, a[0]), a[1]), a[2]), a[3])
  {
    hide Step;
    assert a[1..][0] == a[1] && a[1..][1] == a[2] && a[1..][2] == a[3];
    RunThree(Step(s, a[0]), a[1..]);
  }

  lemma Resumes(s: System, id: WorkerId, w: Worker, segment: Segment)
    ensures Step(With(s, id, w), Resume(id, segment)) == With(s, id, SegmentStep(w, segment))
  {
    hide SegmentStep;
  }

  lemma HappensTo(s: System, id: WorkerId, w: Worker, event: Event)
    ensures Step(With(s, id, w), Happens(id, event)) == With(s, id, EventStep(w, event))
  {
    hide EventStep;
  }

  lemma WithItself(s: System, id: WorkerId)
    requires id in s.workers
    ensures With(s, id, s.workers[id]) == s
  {}

  lemma ReadyReaps(w: Worker)
    requires Ready(w)
    ensures !AnyFailed(w) && !AnyFailed(Reap(w)) && Count(Failing, Reap(w).jobs) == 0 && !Quota(Reaped(w)) && !Quota(Reap(w))
    ensures w.held == false && |Reaped(w).jobs| == |w.jobs|
  {
    hide Count;
    CountDropFinished(w.jobs);
  }

  // The four steps, on the worker alone.
  lemma PollReached(w: Worker)
    requires Ready(w)
    ensures
      var w1 := SegmentStep(w, Head);
      var w2 := EventStep(w1, GrantSlot);
      var w3 := EventStep(w2, SlotDecide);
      SegmentStep(w3, SlotReturn) == Polling(w, Unanswered)
  {
    ReadyReaps(w);
    hide Count, WorkerInv, DropFinished;
    var r := Reap(w);
    var w1 := r.(pc := SlotWait(false));
    assert SegmentStep(w, Head) == w1;
    var w2 := r.(free := w.free - 1, pc := SlotWait(true));
    assert EventStep(w1, GrantSlot) == w2;
    var w3 := r.(free := w.free - 1, held := true, pc := SlotSettle(false, Use));
    assert EventStep(w2, SlotDecide) == w3;
    var v := w3.(pc := LoopHead);
    assert AfterSlot(v) == Polling(w, Unanswered);
  }

  lemma ToPollRuns(s: System, id: WorkerId)
    requires id in s.workers && Ready(s.workers[id])
    ensures Run(s, ToPoll(id)) == With(s, id, Polling(s.workers[id], Unanswered))
  {
    var w := s.workers[id];
    PollReached(w);
    RunFour(s, ToPoll(id));
    var w1 := SegmentStep(w, Head);
    var w2 := EventStep(w1, GrantSlot);
    var w3 := EventStep(w2, SlotDecide);
    hide Ready, Polling, SegmentStep, EventStep, Run, Step, With;
    WithItself(s, id);
    Resumes(s, id, w, Head);
    HappensTo(s, id, w1, GrantSlot);
    HappensTo(s, id, w2, SlotDecide);
    Resumes(s, id, w3, SlotReturn);
  }

  // The worker when the poll has answered and the reservation has been looked at.
  lemma ReplyDecided(w: Worker, reply: Reservation)
    requires Ready(w) && !reply.Unanswered?
    ensures EventStep(Polling(w, reply), ReserveDecide) == Polling(w, reply).(pc := ReserveSettle(reply, Use))
  {
    hide Count, WorkerInv, DropFinished;
  }

  lemma ReplyReturns(w: Worker, reply: Reservation)
    requires Ready(w) && (reply.Nothing? || reply.Got?)
    ensures
      var r := Reaped(w);
      SegmentStep(Polling(w, reply).(pc := ReserveSettle(reply, Use)), ReserveReturn) ==
      if reply.Nothing? then r else r.(free := w.free - 1, jobs := r.jobs + [Job(reply.token, Created, false, false)])
  {
    ReadyReaps(w);
    hide Count, WorkerInv, DropFinished;
  }

  /** A poll that times out brings the worker back to its loop head with every permit it had. */
  lemma IdleTurnRuns(s: System, id: WorkerId)
    requires id in s.workers && Ready(s.workers[id])
    ensures Run(s, IdleTurn(id)) == With(s, id, Reaped(s.workers[id])) && Ready(Reaped(s.workers[id]))
  {
    var w := s.workers[id];
    var rest := [Happens(id, ReserveTimesOut(true)), Happens(id, ReserveDecide), Resume(id, ReserveReturn)];
    RunConcat(s, ToPoll(id), rest);
    ToPollRuns(s, id);
    IdleReply(w);
    ReplyDecided(w, Nothing);
    ReplyReturns(w, Nothing);
    StaysReady(w);
    RunThree(With(s, id, Polling(w, Unanswered)), rest);
    hide Ready, Polling, SegmentStep, EventStep, Run, Reaped, Step, With;
    HappensTo(s, id, Polling(w, Unanswered), ReserveTimesOut(true));
    HappensTo(s, id, Polling(w, Nothing), ReserveDecide);
    Resumes(s, id, Polling(w, Nothing).(pc := ReserveSettle(Nothing, Use)), ReserveReturn);
  }

  lemma IdleReply(w: Worker)
    requires Ready(w)
    ensures EventStep(Polling(w, Unanswered), ReserveTimesOut(true)) == Polling(w, Nothing)
  {
    hide Count, WorkerInv, DropFinished;
  }

  lemma StaysReady(w: Worker)
    requires Ready(w)
    ensures Ready(Reaped(w))
  {
    ReapedKeepsInv(w);
    ReapedKeepsInv(Reap(w));
    ReadyReaps(w);
    hide Count, WorkerInv;
  }

  lemma ReapedKeepsInv(w: Worker)
    requires WorkerInv(w) && w.pc.LoopHead? && !AnyFailed(w) && !w.raising
    ensures WorkerInv(Reap(w)) && !AnyFailed(Reap(w))
  {
    hide Count;
    ReapKeeps(w);
    CountDropFinished(w.jobs);
  }

  /** A poll that is given the oldest pending token schedules it as the worker's next job. */
  lemma BusyTurnRuns(s: System, id: WorkerId)
    requires id in s.workers && Ready(s.workers[id]) && s.pending != []
    ensures
      var w, last := s.workers[id], |s.pending| - 1;
      var r := Reaped(w);
      Run(s, BusyTurn(id)) ==
      With(TakeOne(s), id, r.(free := w.free - 1, jobs := r.jobs + [Job(s.pending[last], Created, false, false)]))
  {
    var w, reply := s.workers[id], Got(s.pending[|s.pending| - 1]);
    var rest := [Commands(id, ReserveTakes(true)), Happens(id, ReserveDecide), Resume(id, ReserveReturn)];
    RunConcat(s, ToPoll(id), rest);
    ToPollRuns(s, id);
    ReplyDecided(w, reply);
    ReplyReturns(w, reply);
    RunThree(With(s, id, Polling(w, Unanswered)), rest);
    TakesReply(s, id);
    hide Ready, Polling, SegmentStep, EventStep, Run, Reaped, TakeOne, Step, With;
    HappensTo(TakeOne(s), id, Polling(w, reply), ReserveDecide);
    Resumes(TakeOne(s), id, Polling(w, reply).(pc := ReserveSettle(reply, Use)), ReserveReturn);
  }

  lemma TakesReply(s: System, id: WorkerId)
    requires id in s.workers && Ready(s.workers[id]) && s.pending != []
    ensures
      var w, reply := s.workers[id], Got(s.pending[|s.pending| - 1]);
      var s1 := With(s, id, Polling(w, Unanswered));
      Step(s1, Commands(id, ReserveTakes(true))) == With(TakeOne(s), id, Polling(w, reply))
  {
    var p := Polling(s.workers[id], Unanswered);
    assert p.pc == ReserveWait(Unanswered);
    hide Polling, Ready;
    TakenBy(s, id, p);
    hide Step;
    assert p.(pc := ReserveWait(Got(s.pending[|s.pending| - 1]))) == Polling(s.workers[id], Got(s.pending[|s.pending| - 1])) by {
      PollingReply(s.workers[id], Got(s.pending[|s.pending| - 1]));
    }
  }

  lemma PollingReply(w: Worker, reply: Reservation)
    requires w.free > 0
    ensures Polling(w, reply) == Polling(w, Unanswered).(pc := ReserveWait(reply))
  {
    hide Reaped;
  }

  lemma TakenBy(s: System, id: WorkerId, w: Worker)
    requires w.pc.ReserveWait? && w.pc.reply.Unanswered? && s.pending != []
    ensures Step(With(s, id, w), Commands(id, ReserveTakes(true))) ==
            With(TakeOne(s), id, w.(pc := ReserveWait(Got(s.pending[|s.pending| - 1]))))
  {}

  // ---------------------------------------------------------------- starting up

  function Requeues(id: WorkerId, n: nat): seq<Action> { seq(n, _ => Commands(id, RequeueOne(true))) }

  /** The requeue loop puts everything in flight in front of what is pending, in its order, and then the
      worker is at its loop head. */
  lemma {:induction false} RequeuesRun(s: System, id: WorkerId)
    requires id in s.workers && s.workers[id].pc.Requeueing?
    ensures Run(s, Requeues(id, |s.processing| + 1)) ==
            With(s.(processing := [], pending := s.processing + s.pending), id, s.workers[id].(pc := LoopHead))
    decreases |s.processing|
  {
    var w, all := s.workers[id], Requeues(id, |s.processing| + 1);
    var t := Step(s, all[0]);
    assert all[1..] == Requeues(id, |s.processing|);
    if s.processing == [] {
      assert t == With(s, id, w.(pc := LoopHead));
      assert Run(t, []) == t;
      assert s.pending == s.processing + s.pending;
      assert s == s.(processing := [], pending := s.processing + s.pending);
    } else {
      assert t == PutBackOne(s);
      RequeuesRun(t, id);
      assert t.processing + t.pending == s.processing + s.pending;
      hide Step, Run;
    }
  }

  /** A worker that finds no lease owned takes it and starts with everything unacknowledged pending. */
  lemma StartsUp(s: System, id: WorkerId)
    requires id in s.workers && s.workers[id].pc.Locking? && s.owner.None?
    ensures Run(s, [Commands(id, Lock(true))] + Requeues(id, |s.processing| + 1)) ==
            With(s.(owner := Some(id), processing := [], pending := s.processing + s.pending), id,
                 s.workers[id].(pc := LoopHead))
  {
    var actions := [Commands(id, Lock(true))] + Requeues(id, |s.processing| + 1);
    assert actions[1..] == Requeues(id, |s.processing| + 1);
    var t := Step(s, actions[0]);
    LocksFirst(s, id);
    hide Step, Requeues;
    RequeuesRun(t, id);
    hide Run, With;
    WithTwice(s.(owner := Some(id), processing := [], pending := s.processing + s.pending), id,
              s.workers[id].(pc := Requeueing), s.workers[id].(pc := LoopHead));
  }

  lemma LocksFirst(s: System, id: WorkerId)
    requires id in s.workers && s.workers[id].pc.Locking? && s.owner.None?
    ensures Step(s, Commands(id, Lock(true))) ==
            s.(owner := Some(id), workers := s.workers[id := s.workers[id].(pc := Requeueing)])
  {}

  lemma WithTwice(s: System, id: WorkerId, v: Worker, w: Worker)
    ensures With(s.(workers := s.workers[id := v]), id, w) == With(s, id, w)
  {}

  // ---------------------------------------------------------------- a job worked off

  // The worker with job `i` in another state.
  function At(w: Worker, i: nat, state: JobState): Worker
    requires i < |w.jobs|
  {
    w.(jobs := w.jobs[i := w.jobs[i].(state := state)])
  }

  function Acked1(w: Worker, i: nat): Worker
    requires i < |w.jobs|
  {
    w.(free := w.free + 1, jobs := w.jobs[i := w.jobs[i].(state := Succeeded, acked := true)])
  }

  // A live worker that has not lost its lease, with a job of number `i`.
  predicate Employs(w: Worker, i: nat) { Live(w) && !w.lockLost && i < |w.jobs| }

  lemma JobStarts(s: System, id: WorkerId, w: Worker, i: nat)
    requires Employs(w, i)
    ensures Step(With(s, id, At(w, i, Created)), JobSteps(id, i, Starts)) == With(s, id, At(w, i, Executing))
  {
    var v := At(w, i, Created);
    assert StartJob(v, i) == At(w, i, Executing);
    hide Live, StartJob;
  }

  lemma JobReturns(s: System, id: WorkerId, w: Worker, i: nat)
    requires Employs(w, i)
    ensures Step(With(s, id, At(w, i, Executing)), JobSteps(id, i, Returns)) ==
            With(s.(returned := s.returned + {w.jobs[i].token}), id, At(w, i, Acking))
  {
    var v := At(w, i, Executing);
    assert ReturnJob(v, i) == At(w, i, Acking);
    hide Live, ReturnJob;
  }

  lemma JobAcks(s: System, id: WorkerId, w: Worker, i: nat)
    requires Employs(w, i) && AckAllowed(s, id, w.jobs[i].token)
    ensures Step(With(s, id, At(w, i, Acking)), Acks(id, i, Ack(true))) ==
            With(AckEffect(s, id, i, w.jobs[i].token), id, Acked1(w, i))
  {
    var v := At(w, i, Acking);
    assert AckJob(v, i, true, true) == Acked1(w, i);
    hide Live, AckJob, RemoveFirst;
  }

  /** A job whose worker owns the lease is executed and acknowledged, and gives its permit back. */
  lemma WorkOffRuns(s: System, id: WorkerId, i: nat)
    requires id in s.workers && Employs(s.workers[id], i) && s.workers[id].jobs[i].state.Created?
    requires AckAllowed(s, id, s.workers[id].jobs[i].token)
    ensures
      var w, token := s.workers[id], s.workers[id].jobs[i].token;
      Run(s, WorkOff(id, i)) == With(AckEffect(s.(returned := s.returned + {token}), id, i, token), id, Acked1(w, i))
  {
    var w, token := s.workers[id], s.workers[id].jobs[i].token;
    var r := s.(returned := s.returned + {token});
    assert At(w, i, Created) == w;
    WithItself(s, id);
    RunThree(s, WorkOff(id, i));
    hide Step, Run, With, At, Employs;
    JobStarts(s, id, w, i);
    JobReturns(s, id, w, i);
    JobAcks(r, id, w, i);
  }

  /** Progress: a worker that is ready, owns the lease and finds a pending token can, without anything
      going wrong, take the oldest one, execute it and acknowledge it. Nothing else is touched, and it is
      back at its loop head with the permits it had. */
  lemma WorkerMakesProgress(s: System, id: WorkerId)
    requires id in s.workers && Ready(s.workers[id]) && s.owner == Some(id) && s.pending != []
    ensures
      var w, last := s.workers[id], |s.pending| - 1;
      var token, job := s.pending[last], |w.jobs|;
      var t := Run(s, BusyTurn(id) + WorkOff(id, job));
      && t.pending == s.pending[..last] && t.processing == s.processing && t.owner == s.owner
      && t.log == s.log + [Acknowledged(id, job, token)] && t.returned == s.returned + {token}
      && t.workers.Keys == s.workers.Keys && (forall other | other in s.workers && other != id :: t.workers[other] == s.workers[other])
      && t.workers[id].pc.LoopHead? && t.workers[id].free == w.free && |t.workers[id].jobs| == |w.jobs| + 1
      && t.workers[id].jobs[job] == Job(token, Succeeded, true, false)
  {
    var w, last := s.workers[id], |s.pending| - 1;
    var token, job := s.pending[last], |w.jobs|;
    BusyTurnRuns(s, id);
    RunConcat(s, BusyTurn(id), WorkOff(id, job));
    ReadyReaps(w);
    ReapedSignals(w);
    var m := Run(s, BusyTurn(id));
    hide Run, Reaped, Ready;
    assert m.processing == [token] + s.processing;
    WorkOffRuns(m, id, job);
    hide WorkOff, BusyTurn;
    assert ([token] + s.processing)[1..] == s.processing;
  }

  lemma ReapedSignals(w: Worker)
    requires Ready(w)
    ensures var r := Reaped(w); r.pc.LoopHead? && !r.lockLost && r.free == w.free && |r.jobs| == |w.jobs| && r.config == w.config
  {
    hide Count;
  }

  // ---------------------------------------------------------------- what signals stop

  /** Once a worker has been asked to stop, has lost its lease, has seen a job fail or has its quota, no
      segment of it schedules another job. */
  lemma SignalledSchedulesNothing(w: Worker, segment: Segment)
    requires WorkerInv(w) && (AnySignal(w) || Quota(w))
    ensures |SegmentStep(w, segment).jobs| == |w.jobs|
  {
    if segment.ReserveReturn? && w.pc.ReserveSettle? {
      ReserveSchedulesNothing(w);
    } else {
      OthersScheduleNothing(w, segment);
    }
    hide SegmentStep;
  }

  lemma ReserveSchedulesNothing(w: Worker)
    requires WorkerInv(w) && (AnySignal(w) || Quota(w)) && w.pc.ReserveSettle?
    ensures |SegmentStep(w, ReserveReturn).jobs| == |w.jobs|
  {
    hide Count, JobsOk, AllReapedOk;
  }

  lemma OthersScheduleNothing(w: Worker, segment: Segment)
    requires !(segment.ReserveReturn? && w.pc.ReserveSettle?)
    ensures |SegmentStep(w, segment).jobs| == |w.jobs|
  {
    HeadsKeepLength(w);
    hide FromLoopHead, FailDrainStep, DrainStep, SlotFinish, ReserveFinish, DropFinished, NeverStart, Count;
  }

  lemma HeadsKeepLength(w: Worker)
    ensures |FromLoopHead(w).jobs| == |w.jobs|
    ensures w.pc.FailDrain? ==> |FailDrainStep(w).jobs| == |w.jobs|
    ensures w.pc.Drain? ==> |DrainStep(w).jobs| == |w.jobs|
  {
    assert |Reap(w).jobs| == |w.jobs|;
    hide Count, DropFinished, AnyFailed, Quota, Reap;
  }

  /** Once its lease is known to be lost, no job of a worker begins to execute or to acknowledge. */
  lemma LostLeaseStopsJobs(s: System, id: WorkerId, i: nat, step: TaskStep)
    requires id in s.workers && s.workers[id].lockLost && i < |s.workers[id].jobs|
    ensures
      var t := JobStep(s, id, s.workers[id], i, step);
      t == s || t.workers[id].jobs[i].state.Failed?
  {
    hide Live, InState;
  }

  /** A segment that raises found the lease lost or a failed job, or was cancelled, or its reservation
      raised. */
  lemma RaisesForAReason(w: Worker, segment: Segment)
    requires WorkerInv(w) && Live(w) && !w.raising && SegmentStep(w, segment).raising
    ensures w.lockLost || w.jobFailed
         || (w.pc.SlotSettle? && w.pc.why.Cancelled?)
         || (w.pc.ReserveSettle? && (w.pc.why.Cancelled? || (w.pc.why.Use? && w.pc.reply.Broken?)))
  {
    hide Count;
    CountDropFinished(w.jobs);
  }

  // The segments that look at the lease and, all but the last, at failed jobs.
  predicate Looks(w: Worker, segment: Segment) {
    match segment
    case Head => w.pc.LoopHead? && !w.stop && !Quota(w)
    case SlotReturn => w.pc.SlotSettle?
    case ReserveReturn => w.pc.ReserveSettle?
    case Draining => w.pc.Drain?
    case _ => false
  }

  /** Each of them raises when the lease is lost. */
  lemma LostLeaseRaises(w: Worker, segment: Segment)
    requires WorkerInv(w) && w.lockLost && Looks(w, segment)
    ensures SegmentStep(w, segment).raising
  {
    HeadRaises(w);
    if w.pc.SlotSettle? { SlotRaises(w); }
    if w.pc.ReserveSettle? { ReserveRaises(w); }
    hide FromLoopHead, SlotFinish, ReserveFinish, DrainStep, Quota, Count, WorkerInv;
  }

  lemma HeadRaises(w: Worker)
    requires w.lockLost
    ensures !w.stop && !Quota(w) ==> FromLoopHead(w).raising
    ensures w.pc.Drain? ==> DrainStep(w).raising
  {
    hide Count, DropFinished, Quota, AnyFailed;
  }

  lemma AfterSlotRaises(w: Worker)
    requires w.lockLost
    ensures AfterSlot(w).raising && Unwind(w, false).raising
  {
    hide Count, DropFinished;
  }

  lemma SlotRaises(w: Worker)
    requires w.lockLost && w.pc.SlotSettle?
    ensures SlotFinish(w).raising
  {
    hide AfterSlot, Unwind;
    AfterSlotRaises(w.(free := w.free + 1, pc := LoopHead));
    AfterSlotRaises(w.(pc := LoopHead));
  }

  lemma ReserveRaises(w: Worker)
    requires w.lockLost && w.pc.ReserveSettle?
    ensures ReserveFinish(w).raising
  {
    hide Count, DropFinished;
  }

  /** And after a failed job each of them but the final drain raises or goes to wait for its error, which
      the next segment raises; so does the drain once the job is there to be reaped. */
  lemma FailedJobRaises(w: Worker, segment: Segment)
    requires WorkerInv(w) && w.jobFailed && !w.raising
    ensures Looks(w, segment) && !segment.Draining? ==> SegmentStep(w, segment).raising || SegmentStep(w, segment).pc.FailDrain?
    ensures w.pc.FailDrain? ==> FailDrainStep(w).raising
    ensures w.pc.Drain? ==> DrainStep(w).raising
  {
    if w.pc.FailDrain? || w.pc.Drain? {
      CountSplit(w.jobs);
      FailingIsActive(w.jobs);
      hide Count;
    } else {
      hide Count, WorkerInv, DropFinished;
    }
  }

  lemma {:induction false} FailingIsActive(jobs: seq<Job>)
    ensures Count(Failing, jobs) <= Count(Active, jobs)
  {
    if jobs != [] { FailingIsActive(jobs[..|jobs| - 1]); }
  }
}
