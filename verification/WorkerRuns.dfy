/** Safety of the whole deployment over every run: crashes, restarts, competing workers, lost leases. */
module WorkerRuns {
  import opened Wrappers
  import opened WorkerModel
  import opened WorkerSafety

  // ---------------------------------------------------------------- the invariant

  predicate Conserved(s: System) {
    multiset(s.pending) + multiset(s.processing) + Acked(s.log) == s.enqueued
  }

  predicate EntryOk(workers: map<WorkerId, Worker>, returned: set<Token>, e: Acknowledged) {
    && e.worker in workers && e.job < |workers[e.worker].jobs|
    && workers[e.worker].jobs[e.job].acked
    && workers[e.worker].jobs[e.job].token == e.token
    && e.token in returned
  }

  /** Every log entry is a job the named worker records as acknowledged, and no job is logged twice. */
  predicate LogOk(s: System) {
    && (forall k | 0 <= k < |s.log| :: EntryOk(s.workers, s.returned, s.log[k]))
    && (forall j, k | 0 <= j < k < |s.log| :: !(s.log[j].worker == s.log[k].worker && s.log[j].job == s.log[k].job))
  }

  predicate JobLinked(log: seq<Acknowledged>, returned: set<Token>, id: WorkerId, i: nat, j: Job) {
    && (j.acked ==> Acknowledged(id, i, j.token) in log)
    && (j.state.Acking? || j.stray ==> j.token in returned)
  }

  predicate Linked(log: seq<Acknowledged>, returned: set<Token>, id: WorkerId, w: Worker) {
    forall i | 0 <= i < |w.jobs| :: JobLinked(log, returned, id, i, w.jobs[i])
  }

  predicate WorkersOk(s: System) {
    forall id | id in s.workers :: WorkerInv(s.workers[id]) && Linked(s.log, s.returned, id, s.workers[id])
  }

  predicate Inv(s: System) { Conserved(s) && LogOk(s) && WorkersOk(s) }

  // ---------------------------------------------------------------- Redis commands conserve tokens

  lemma TakeOneConserves(s: System)
    requires s.pending != []
    ensures multiset(TakeOne(s).pending) + multiset(TakeOne(s).processing) == multiset(s.pending) + multiset(s.processing)
  {
    assert s.pending == s.pending[..|s.pending| - 1] + [s.pending[|s.pending| - 1]];
  }

  lemma PutBackConserves(s: System)
    requires s.processing != []
    ensures multiset(PutBackOne(s).pending) + multiset(PutBackOne(s).processing) == multiset(s.pending) + multiset(s.processing)
  {
    assert s.processing == s.processing[..|s.processing| - 1] + [s.processing[|s.processing| - 1]];
  }

  lemma {:induction false} RemoveFirstConserves(list: seq<Token>, token: Token)
    requires token in list
    ensures multiset(RemoveFirst(list, token)) + multiset{token} == multiset(list)
  {
    assert list == [list[0]] + list[1..];
    if list[0] != token { RemoveFirstConserves(list[1..], token); }
  }

  lemma AckedAppend(log: seq<Acknowledged>, e: Acknowledged)
    ensures Acked(log + [e]) == Acked(log) + multiset{e.token}
  {
    assert (log + [e])[..|log|] == log;
  }

  // ---------------------------------------------------------------- replacing one worker

  /** Job `j` became `k` without being acknowledged. */
  predicate QuietJob(returned: set<Token>, j: Job, k: Job) {
    k.token == j.token && k.acked == j.acked && (k.state.Acking? || k.stray ==> k.token in returned)
  }

  predicate Fresh(k: Job) { !k.acked && !k.state.Acking? && !k.stray }

  predicate Quiet(returned: set<Token>, w: Worker, v: Worker) {
    && |w.jobs| <= |v.jobs|
    && (forall i | 0 <= i < |w.jobs| :: QuietJob(returned, w.jobs[i], v.jobs[i]))
    && (forall i | |w.jobs| <= i < |v.jobs| :: Fresh(v.jobs[i]))
  }

  lemma SameJobsQuiet(s: System, id: WorkerId, v: Worker)
    requires Inv(s) && id in s.workers && v.jobs == s.workers[id].jobs
    ensures Quiet(s.returned, s.workers[id], v)
  {
    assert Linked(s.log, s.returned, id, s.workers[id]);
    forall i | 0 <= i < |v.jobs| ensures QuietJob(s.returned, s.workers[id].jobs[i], v.jobs[i]) {
      assert JobLinked(s.log, s.returned, id, i, s.workers[id].jobs[i]);
    }
  }

  lemma QuietKeepsLinked(log: seq<Acknowledged>, old_: set<Token>, returned: set<Token>, id: WorkerId, w: Worker, v: Worker)
    requires Linked(log, old_, id, w) && old_ <= returned && Quiet(returned, w, v)
    ensures Linked(log, returned, id, v)
  {
    forall i | 0 <= i < |v.jobs| ensures JobLinked(log, returned, id, i, v.jobs[i]) {
      if i < |w.jobs| { assert JobLinked(log, old_, id, i, w.jobs[i]) && QuietJob(returned, w.jobs[i], v.jobs[i]); }
    }
  }

  lemma LinkedGrows(log: seq<Acknowledged>, more: seq<Acknowledged>, old_: set<Token>, returned: set<Token>, id: WorkerId, w: Worker)
    requires Linked(log, old_, id, w) && old_ <= returned && log <= more
    ensures Linked(more, returned, id, w)
  {
    forall i | 0 <= i < |w.jobs| ensures JobLinked(more, returned, id, i, w.jobs[i]) {
      assert JobLinked(log, old_, id, i, w.jobs[i]);
    }
  }

  lemma QuietKeepsLog(s: System, t: System, id: WorkerId, v: Worker)
    requires LogOk(s) && id in s.workers && s.returned <= t.returned && t.log == s.log
    requires t.workers == s.workers[id := v] && Quiet(t.returned, s.workers[id], v)
    ensures LogOk(t)
  {
    hide WorkerInv;
    forall k | 0 <= k < |t.log| ensures EntryOk(t.workers, t.returned, t.log[k]) {
      assert EntryOk(s.workers, s.returned, s.log[k]);
      if s.log[k].worker == id { assert QuietJob(t.returned, s.workers[id].jobs[s.log[k].job], v.jobs[s.log[k].job]); }
    }
  }

  /** A step that acknowledges nothing: `t` is the new shared state, `v` the worker's new locals. */
  lemma QuietKeeps(s: System, t: System, id: WorkerId, v: Worker)
    requires Inv(s) && id in s.workers && WorkerInv(v)
    requires t == s.(pending := t.pending, processing := t.processing, owner := t.owner, returned := t.returned)
    requires Conserved(t) && s.returned <= t.returned
    requires Quiet(t.returned, s.workers[id], v)
    ensures Inv(With(t, id, v))
  {
    hide WorkerInv;
    var r := With(t, id, v);
    QuietKeepsLog(s, r, id, v);
    forall other | other in r.workers ensures WorkerInv(r.workers[other]) && Linked(r.log, r.returned, other, r.workers[other]) {
      if other == id {
        QuietKeepsLinked(s.log, s.returned, t.returned, id, s.workers[id], v);
      } else {
        LinkedGrows(s.log, r.log, s.returned, r.returned, other, s.workers[other]);
      }
    }
  }

  lemma SharedKeeps(s: System, t: System)
    requires Inv(s)
    requires t == s.(pending := t.pending, processing := t.processing, owner := t.owner, enqueued := t.enqueued)
    requires Conserved(t)
    ensures Inv(t)
  {
    hide WorkerInv;
  }

  lemma NewWorkerOk(config: Config)
    requires config.slots >= 1
    ensures WorkerInv(NewWorker(config))
  {
  }

  lemma AddKeepsLog(s: System, t: System, id: WorkerId, w: Worker)
    requires LogOk(s) && id !in s.workers
    requires t.returned == s.returned && t.log == s.log && t.workers == s.workers[id := w]
    ensures LogOk(t)
  {
    hide WorkerInv;
    forall k | 0 <= k < |t.log| ensures EntryOk(t.workers, t.returned, t.log[k]) {
      assert EntryOk(s.workers, s.returned, s.log[k]);
    }
  }

  lemma AddKeeps(s: System, id: WorkerId, w: Worker)
    requires Inv(s) && id !in s.workers && WorkerInv(w) && w.jobs == []
    ensures Inv(With(s, id, w))
  {
    hide WorkerInv;
    AddKeepsLog(s, With(s, id, w), id, w);
  }

  /** Job `i` of worker `id` can be acknowledged by replacing the worker's record with `v`. */
  predicate Acknowledges(s: System, id: WorkerId, i: nat, v: Worker) {
    && id in s.workers && i < |s.workers[id].jobs| && |v.jobs| == |s.workers[id].jobs|
    && (var j, k := s.workers[id].jobs[i], v.jobs[i];
        && !j.acked && (j.state.Acking? || j.stray)
        && k.acked && k.token == j.token && !k.state.Acking? && !k.stray
        && v.jobs == s.workers[id].jobs[i := k])
  }

  lemma AckKeepsLog(s: System, t: System, id: WorkerId, i: nat, v: Worker)
    requires LogOk(s) && Acknowledges(s, id, i, v) && v.jobs[i].token in s.returned
    requires t.returned == s.returned && t.workers == s.workers[id := v]
    requires t.log == s.log + [Acknowledged(id, i, v.jobs[i].token)]
    ensures LogOk(t)
  {
    hide WorkerInv;
    forall k | 0 <= k < |t.log| ensures EntryOk(t.workers, t.returned, t.log[k]) {
      if k < |s.log| { assert EntryOk(s.workers, s.returned, s.log[k]); }
    }
    forall j, k | 0 <= j < k < |t.log| ensures !(t.log[j].worker == t.log[k].worker && t.log[j].job == t.log[k].job) {
      assert EntryOk(s.workers, s.returned, s.log[j]);
    }
  }

  lemma AckKeepsLinked(s: System, more: seq<Acknowledged>, id: WorkerId, i: nat, v: Worker)
    requires Acknowledges(s, id, i, v) && Linked(s.log, s.returned, id, s.workers[id])
    requires more == s.log + [Acknowledged(id, i, v.jobs[i].token)]
    ensures Linked(more, s.returned, id, v)
  {
    LinkedGrows(s.log, more, s.returned, s.returned, id, s.workers[id]);
    forall n | 0 <= n < |v.jobs| ensures JobLinked(more, s.returned, id, n, v.jobs[n]) {
      assert JobLinked(more, s.returned, id, n, s.workers[id].jobs[n]);
      if n == i { assert more[|s.log|] == Acknowledged(id, i, v.jobs[i].token); }
    }
  }

  /** An acknowledgement that takes effect: the job's record and the log change together. */
  lemma AckKeeps(s: System, id: WorkerId, i: nat, v: Worker)
    requires Inv(s) && Acknowledges(s, id, i, v) && WorkerInv(v) && AckAllowed(s, id, v.jobs[i].token)
    ensures Inv(With(AckEffect(s, id, i, v.jobs[i].token), id, v))
  {
    hide WorkerInv;
    var token := v.jobs[i].token;
    var r := With(AckEffect(s, id, i, token), id, v);
    assert JobLinked(s.log, s.returned, id, i, s.workers[id].jobs[i]);
    RemoveFirstConserves(s.processing, token);
    AckedAppend(s.log, Acknowledged(id, i, token));
    AckKeepsLog(s, r, id, i, v);
    AckKeepsLinked(s, r.log, id, i, v);
    forall other | other in r.workers && other != id ensures Linked(r.log, r.returned, other, r.workers[other]) {
      LinkedGrows(s.log, r.log, s.returned, r.returned, other, s.workers[other]);
    }
  }

  // ---------------------------------------------------------------- every step keeps the invariant

  /** No job was acknowledged and no acknowledgement was sent. */
  predicate Reshaped(old_: seq<Job>, jobs: seq<Job>) {
    && |old_| <= |jobs|
    && (forall i | 0 <= i < |old_| ::
          jobs[i].token == old_[i].token && jobs[i].acked == old_[i].acked
          && (jobs[i].state.Acking? || jobs[i].stray ==> old_[i].state.Acking? || old_[i].stray))
    && (forall i | |old_| <= i < |jobs| :: Fresh(jobs[i]))
  }

  lemma LoopStepKeeps(s: System, t: System, id: WorkerId, v: Worker)
    requires Inv(s) && id in s.workers && WorkerInv(v)
    requires t == s.(pending := t.pending, processing := t.processing, owner := t.owner)
    requires multiset(t.pending) + multiset(t.processing) == multiset(s.pending) + multiset(s.processing)
    requires Reshaped(s.workers[id].jobs, v.jobs)
    ensures Inv(With(t, id, v))
  {
    hide WorkerInv;
    forall i | 0 <= i < |s.workers[id].jobs| ensures QuietJob(t.returned, s.workers[id].jobs[i], v.jobs[i]) {
      assert JobLinked(s.log, s.returned, id, i, s.workers[id].jobs[i]);
    }
    QuietKeeps(s, t, id, v);
  }

  lemma SameReshapes(jobs: seq<Job>, token: Token)
    ensures Reshaped(jobs, jobs) && Reshaped(jobs, jobs + [Job(token, Created, false, false)])
  {
  }

  lemma DropReshapes(jobs: seq<Job>)
    ensures Reshaped(jobs, DropFinished(jobs)) && Reshaped(jobs, NeverStart(jobs))
  {
  }

  lemma CrashReshapes(w: Worker)
    ensures Reshaped(w.jobs, Crash(w).jobs)
  {
  }

  lemma HeadsReshape(w: Worker)
    ensures w.pc.LoopHead? ==> Reshaped(w.jobs, FromLoopHead(w).jobs)
    ensures w.pc.FailDrain? ==> Reshaped(w.jobs, FailDrainStep(w).jobs)
    ensures w.pc.Drain? ==> Reshaped(w.jobs, DrainStep(w).jobs)
  {
    hide Reshaped, Count, DropFinished;
    SameReshapes(w.jobs, "");
    DropReshapes(w.jobs);
  }

  lemma SlotReshapes(w: Worker)
    requires w.pc.SlotSettle?
    ensures Reshaped(w.jobs, SlotFinish(w).jobs)
  {
    SameReshapes(w.jobs, "");
    DropReshapes(w.jobs);
    hide Reshaped, DropFinished, SlotFinish;
  }

  lemma ReserveReshapes(w: Worker)
    requires w.pc.ReserveSettle?
    ensures Reshaped(w.jobs, ReserveFinish(w).jobs)
  {
    SameReshapes(w.jobs, if w.pc.reply.Got? then w.pc.reply.token else "");
    hide Reshaped, Count, AfterReserve;
  }

  lemma CancelReshapes(w: Worker)
    ensures Reshaped(w.jobs, CancelLoop(w).jobs)
  {
    SameReshapes(w.jobs, "");
    hide Reshaped, CancelLoop;
  }

  lemma SegmentReshapes(w: Worker, segment: Segment)
    ensures Reshaped(w.jobs, SegmentStep(w, segment).jobs)
  {
    HeadsReshape(w);
    if w.pc.SlotSettle? { SlotReshapes(w); }
    if w.pc.ReserveSettle? { ReserveReshapes(w); }
    DropReshapes(w.jobs);
    SameReshapes(w.jobs, "");
    hide Reshaped, Count, SlotFinish, ReserveFinish, FromLoopHead, FailDrainStep, DrainStep;
  }

  lemma SegmentStepKeeps(w: Worker, segment: Segment)
    requires WorkerInv(w)
    ensures WorkerInv(SegmentStep(w, segment))
  {
    if w.pc.LoopHead? { LoopHeadKeeps(w); }
    if w.pc.SlotSettle? { SlotFinishKeeps(w); }
    if w.pc.ReserveSettle? { ReserveFinishKeeps(w); }
    if w.pc.FailDrain? { FailDrainKeeps(w); }
    if w.pc.Drain? { DrainKeeps(w); }
    if w.pc.Cleanup? { CancelJobsKeeps(w); }
    hide WorkerInv, Count, SlotFinish, ReserveFinish, FromLoopHead, FailDrainStep, DrainStep;
  }

  lemma FaultStepKeeps(w: Worker, fault: Fault)
    requires WorkerInv(w)
    ensures WorkerInv(FaultStep(w, fault)) && Reshaped(w.jobs, FaultStep(w, fault).jobs)
  {
    CancelLoopKeeps(w);
    CancelReshapes(w);
    CrashReshapes(w);
    SameReshapes(w.jobs, "");
    if Live(w) { CrashKeeps(w); }
    hide WorkerInv, Reshaped, CancelLoop, Crash;
  }

  /** The coroutine runs to its next await, waits, is cancelled, or dies with its process. */
  lemma LocalKeeps(s: System, a: Action)
    requires Inv(s) && (a.Resume? || a.Happens? || a.Strikes?)
    ensures Inv(Step(s, a))
  {
    if a.id in s.workers {
      var w := s.workers[a.id];
      var v: Worker;
      match a {
        case Resume(_, segment) => v := SegmentStep(w, segment); SegmentStepKeeps(w, segment); SegmentReshapes(w, segment);
        case Happens(_, event) => v := EventStep(w, event); EventKeeps(w, event); SameReshapes(w.jobs, "");
        case Strikes(_, fault) => v := FaultStep(w, fault); FaultStepKeeps(w, fault);
      }
      hide WorkerInv, Inv, Reshaped, SegmentStep, EventStep, FaultStep;
      LoopStepKeeps(s, s, a.id, v);
    }
  }

  /** A command that moves a token between the two lists, or takes or drops the lock. */
  lemma MoveKeeps(s: System, t: System, id: WorkerId, v: Worker)
    requires Inv(s) && id in s.workers && WorkerInv(v) && v.jobs == s.workers[id].jobs
    requires t == s || (s.pending != [] && t == TakeOne(s)) || t == s.(owner := t.owner)
    ensures Inv(With(t, id, v))
  {
    if s.pending != [] { TakeOneConserves(s); }
    SameReshapes(v.jobs, "");
    hide WorkerInv, Reshaped;
    LoopStepKeeps(s, t, id, v);
  }

  lemma LockKeeps(s: System, id: WorkerId, a: Command)
    requires Inv(s) && id in s.workers && (a.Lock? || a.Close?)
    ensures Inv(CommandStep(s, id, s.workers[id], a))
  {
    hide Count, WorkerInv;
    var w := s.workers[id];
    if a.Lock? && w.pc.Locking? {
      PcKeeps(w, Requeueing);
      LockRefusedKeeps(w);
      var t := if s.owner.Some? then s else s.(owner := Some(id));
      MoveKeeps(s, t, id, if s.owner.None? && a.delivered then w.(pc := Requeueing) else w.(pc := Raised, raising := true));
    } else if a.Close? && w.pc.CleanupGather? {
      CloseKeeps(w);
      var t := if a.released && s.owner == Some(id) then s.(owner := None) else s;
      MoveKeeps(s, t, id, w.(pc := if w.raising then Raised else Returned(w.processed)));
    }
  }

  lemma RequeueKeeps(s: System, id: WorkerId, a: Command)
    requires Inv(s) && id in s.workers && a.RequeueOne?
    ensures Inv(CommandStep(s, id, s.workers[id], a))
  {
    var w := s.workers[id];
    if w.pc.Requeueing? {
      UnwindKeeps(w, false);
      PcKeeps(w, LoopHead);
      hide Count, WorkerInv;
      if !a.ok {
        MoveKeeps(s, s, id, Unwind(w, false));
      } else if s.processing == [] {
        MoveKeeps(s, s, id, w.(pc := LoopHead));
      } else {
        PutBackConserves(s);
        SharedKeeps(s, PutBackOne(s));
      }
    }
  }

  lemma ReserveKeeps(s: System, id: WorkerId, a: Command)
    requires Inv(s) && id in s.workers && (a.ReserveTakes? || a.StrayReserve?)
    ensures Inv(CommandStep(s, id, s.workers[id], a))
  {
    hide Count, WorkerInv;
    var w := s.workers[id];
    if s.pending != [] {
      if a.StrayReserve? && w.strayReserve {
        StrayKeeps(w);
        MoveKeeps(s, TakeOne(s), id, w.(strayReserve := false));
      } else if a.ReserveTakes? {
        var reply := if a.delivered then Got(s.pending[|s.pending| - 1]) else Broken;
        if w.pc.ReserveWait? && w.pc.reply == Unanswered {
          PcKeeps(w, ReserveWait(reply));
          MoveKeeps(s, TakeOne(s), id, w.(pc := ReserveWait(reply)));
        } else if w.pc.ReserveSettle? && w.pc.reply == Unanswered {
          PcKeeps(w, ReserveSettle(reply, w.pc.why));
          MoveKeeps(s, TakeOne(s), id, w.(pc := ReserveSettle(reply, w.pc.why)));
        }
      }
    }
  }

  lemma StrayKeeps(w: Worker)
    requires WorkerInv(w)
    ensures WorkerInv(w.(strayReserve := false))
  {
    hide Count;
  }

  // Job tasks.

  /** A job task takes a step that acknowledges nothing. */
  lemma SetJobQuiet(s: System, t: System, id: WorkerId, i: nat, job: Job, lockLost: bool)
    requires Inv(s) && id in s.workers && Live(s.workers[id]) && i < |s.workers[id].jobs|
    requires t == s.(returned := t.returned) && s.returned <= t.returned
    requires var j := s.workers[id].jobs[i];
      Is(Holding, j) && job.token == j.token && job.acked == j.acked && (job.state.Acking? || job.stray ==> j.token in t.returned)
    requires JobOk(job) && !job.state.NeverStarted? && !job.state.Reaped?
    ensures Inv(With(t, id, SetJob(s.workers[id].(lockLost := lockLost), i, job)))
  {
    var w := s.workers[id];
    FlagKeeps(w, w.stop, lockLost);
    SetJobKeeps(w.(lockLost := lockLost), i, job);
    hide WorkerInv, Count;
    SameJobsQuiet(s, id, w);
    QuietKeeps(s, t, id, SetJob(w.(lockLost := lockLost), i, job));
  }

  lemma LiveJobOk(s: System, id: WorkerId, i: nat)
    requires Inv(s) && id in s.workers && i < |s.workers[id].jobs|
    ensures JobOk(s.workers[id].jobs[i])
    ensures JobLinked(s.log, s.returned, id, i, s.workers[id].jobs[i])
  {
    assert s.workers[id].jobs[i] in s.workers[id].jobs;
  }

  lemma JobStartKeeps(s: System, id: WorkerId, i: nat)
    requires Inv(s) && id in s.workers && Live(s.workers[id]) && InState(s.workers[id], i, Created)
    ensures Inv(With(s, id, StartJob(s.workers[id], i)))
  {
    var w := s.workers[id];
    LiveJobOk(s, id, i);
    hide WorkerInv, Inv, SetJob, Live;
    SetJobQuiet(s, s, id, i, w.jobs[i].(state := if w.lockLost then Failed else Executing), w.lockLost);
  }

  lemma JobReturnKeeps(s: System, id: WorkerId, i: nat)
    requires Inv(s) && id in s.workers && Live(s.workers[id]) && InState(s.workers[id], i, Executing)
    ensures Inv(With(s.(returned := s.returned + {s.workers[id].jobs[i].token}), id, ReturnJob(s.workers[id], i)))
  {
    var w := s.workers[id];
    LiveJobOk(s, id, i);
    hide WorkerInv, Inv, SetJob, Live;
    var j := w.jobs[i];
    SetJobQuiet(s, s.(returned := s.returned + {j.token}), id, i, j.(state := if w.lockLost then Failed else Acking), w.lockLost);
  }

  lemma JobFailsKeeps(s: System, id: WorkerId, i: nat)
    requires Inv(s) && id in s.workers && Live(s.workers[id])
    requires InState(s.workers[id], i, Executing) || InState(s.workers[id], i, Acking)
    ensures InState(s.workers[id], i, Executing) ==> Inv(With(s, id, FailJob(s.workers[id], i)))
    ensures InState(s.workers[id], i, Acking) ==> Inv(With(s, id, AckUnsent(s.workers[id], i)))
  {
    var w := s.workers[id];
    LiveJobOk(s, id, i);
    hide WorkerInv, Inv, SetJob, Live;
    if w.jobs[i].state.Executing? {
      SetJobQuiet(s, s, id, i, w.jobs[i].(state := Failed), w.lockLost);
    } else {
      SetJobQuiet(s, s, id, i, w.jobs[i].(state := Failed, stray := true), w.lockLost);
    }
  }

  lemma JobStepKeeps(s: System, id: WorkerId, i: nat, step: TaskStep)
    requires Inv(s) && id in s.workers
    ensures Inv(JobStep(s, id, s.workers[id], i, step))
  {
    hide Inv, StartJob, ReturnJob, FailJob, AckUnsent;
    var w := s.workers[id];
    if Live(w) && InState(w, i, TaskState(step)) {
      match step
      case Starts => JobStartKeeps(s, id, i);
      case Returns => JobReturnKeeps(s, id, i);
      case _ => JobFailsKeeps(s, id, i);
    }
  }

  lemma AckCommandKeeps(s: System, id: WorkerId, i: nat, delivered: bool)
    requires Inv(s) && id in s.workers
    ensures Inv(AckStep(s, id, s.workers[id], i, Ack(delivered)))
  {
    var w := s.workers[id];
    if Live(w) && InState(w, i, Acking) {
      if AckAllowed(s, id, w.jobs[i].token) { AckAcceptedKeeps(s, id, i, delivered); } else { AckRefusedKeeps(s, id, i, delivered); }
    }
    hide Inv, AckStep;
  }

  lemma AckJobKeeps(w: Worker, i: nat, effect: bool, delivered: bool)
    requires WorkerInv(w) && Live(w) && InState(w, i, Acking) && JobOk(w.jobs[i])
    ensures WorkerInv(AckJob(w, i, effect, delivered))
  {
    var lockLost := w.lockLost || (delivered && !effect);
    var job := w.jobs[i].(state := if effect && delivered then Succeeded else Failed, acked := w.jobs[i].acked || effect);
    FlagKeeps(w, w.stop, lockLost);
    hide WorkerInv;
    SetJobKeeps(w.(lockLost := lockLost), i, job);
  }

  lemma AckAcceptedKeeps(s: System, id: WorkerId, i: nat, delivered: bool)
    requires Inv(s) && id in s.workers && Live(s.workers[id]) && InState(s.workers[id], i, Acking)
    requires AckAllowed(s, id, s.workers[id].jobs[i].token)
    ensures Inv(AckStep(s, id, s.workers[id], i, Ack(delivered)))
  {
    var w := s.workers[id];
    LiveJobOk(s, id, i);
    AckJobKeeps(w, i, true, delivered);
    hide WorkerInv, Inv, Live, Count, AckEffect;
    AckKeeps(s, id, i, AckJob(w, i, true, delivered));
  }

  lemma AckRefusedKeeps(s: System, id: WorkerId, i: nat, delivered: bool)
    requires Inv(s) && id in s.workers && Live(s.workers[id]) && InState(s.workers[id], i, Acking)
    requires !AckAllowed(s, id, s.workers[id].jobs[i].token)
    ensures Inv(AckStep(s, id, s.workers[id], i, Ack(delivered)))
  {
    var w := s.workers[id];
    LiveJobOk(s, id, i);
    var lockLost := w.lockLost || delivered;
    var job := w.jobs[i].(state := Failed);
    FlagKeeps(w, w.stop, lockLost);
    SetJobKeeps(w.(lockLost := lockLost), i, job);
    hide WorkerInv, Inv, Live, Count, AckEffect;
    SetJobQuiet(s, s, id, i, job, lockLost);
  }

  lemma SettleStrayKeeps(w: Worker, i: nat, effect: bool)
    requires WorkerInv(w) && i < |w.jobs| && w.jobs[i].stray
    ensures WorkerInv(SettleStray(w, i, effect))
  {
    var j := w.jobs[i].(stray := false, acked := w.jobs[i].acked || effect);
    CountUpdate(Holding, w.jobs, i, j);
    CountUpdate(Active, w.jobs, i, j);
    CountUpdate(Counted, w.jobs, i, j);
    CountUpdate(Failing, w.jobs, i, j);
    assert w.jobs[i] in w.jobs;
    hide Count;
  }

  lemma StrayAckKeeps(s: System, id: WorkerId, i: nat)
    requires Inv(s) && id in s.workers
    ensures Inv(AckStep(s, id, s.workers[id], i, StrayAck))
  {
    var w := s.workers[id];
    if i < |w.jobs| && w.jobs[i].stray {
      LiveJobOk(s, id, i);
      var effect := AckAllowed(s, id, w.jobs[i].token);
      SettleStrayKeeps(w, i, effect);
      var v := SettleStray(w, i, effect);
      hide WorkerInv;
      if effect {
        AckKeeps(s, id, i, v);
      } else {
        SameJobsQuiet(s, id, w);
        QuietKeeps(s, s, id, v);
      }
    }
  }

  /** One step of anything that can happen keeps the whole invariant. */
  lemma StepKeeps(s: System, a: Action)
    requires Inv(s)
    ensures Inv(Step(s, a))
  {
    hide Inv, CommandStep, JobStep, AckStep;
    match a
    case Enqueue(token) => EnqueueKeeps(s, token);
    case LeaseExpires => ExpiryKeeps(s);
    case Spawn(id, config) => if id !in s.workers && config.slots >= 1 { NewWorkerKeeps(s, id, config); }
    case Commands(id, command) =>
      if id in s.workers {
        match command
        case Lock(_) => LockKeeps(s, id, command);
        case Close(_) => LockKeeps(s, id, command);
        case RequeueOne(_) => RequeueKeeps(s, id, command);
        case ReserveTakes(_) => ReserveKeeps(s, id, command);
        case StrayReserve => ReserveKeeps(s, id, command);
      }
    case JobSteps(id, job, step) => if id in s.workers { JobStepKeeps(s, id, job, step); }
    case Acks(id, job, ack) =>
      if id in s.workers {
        match ack case Ack(delivered) => AckCommandKeeps(s, id, job, delivered); case StrayAck => StrayAckKeeps(s, id, job);
      }
    case Resume(_, _) => LocalKeeps(s, a);
    case Happens(_, _) => LocalKeeps(s, a);
    case Strikes(_, _) => LocalKeeps(s, a);
  }

  lemma EnqueueKeeps(s: System, token: Token)
    requires Inv(s)
    ensures Inv(s.(pending := [token] + s.pending, enqueued := s.enqueued + multiset{token}))
  {
    SharedKeeps(s, s.(pending := [token] + s.pending, enqueued := s.enqueued + multiset{token}));
  }

  lemma ExpiryKeeps(s: System)
    requires Inv(s)
    ensures Inv(s.(owner := None))
  {
    SharedKeeps(s, s.(owner := None));
  }

  lemma NewWorkerKeeps(s: System, id: WorkerId, config: Config)
    requires Inv(s) && id !in s.workers && config.slots >= 1
    ensures Inv(With(s, id, NewWorker(config)))
  {
    NewWorkerOk(config);
    AddKeeps(s, id, NewWorker(config));
  }

  // ---------------------------------------------------------------- the theorems

  lemma {:induction false} RunKeeps(s: System, actions: seq<Action>)
    requires Inv(s)
    ensures Inv(Run(s, actions))
    decreases |actions|
  {
    hide Inv, Step;
    if actions != [] {
      StepKeeps(s, actions[0]);
      RunKeeps(Step(s, actions[0]), actions[1..]);
    }
  }

  lemma Reachable(actions: seq<Action>)
    ensures Inv(Run(Empty, actions))
  {
    RunKeeps(Empty, actions);
  }

  /** No job is lost: in every reachable state each enqueued token is pending, being processed or
      acknowledged, exactly once per time it was enqueued; and only returned executions are acknowledged. */
  lemma NoTokenIsLost(actions: seq<Action>)
    ensures var s := Run(Empty, actions);
      && multiset(s.pending) + multiset(s.processing) + Acked(s.log) == s.enqueued
      && (forall e | e in s.log :: e.token in s.returned)
  {
    Reachable(actions);
    var s := Run(Empty, actions);
    forall e | e in s.log ensures e.token in s.returned {
      var k :| 0 <= k < |s.log| && s.log[k] == e;
      assert EntryOk(s.workers, s.returned, s.log[k]);
    }
  }

  /** Permits are conserved in every reachable state, so at most `slots` jobs hold one; at a loop head
      every permit is free or held by an unfinished job; `active_jobs` never outgrows the limit. */
  lemma PermitsAreConserved(actions: seq<Action>, id: WorkerId)
    requires id in Run(Empty, actions).workers && !Run(Empty, actions).workers[id].pc.Crashed?
    ensures var w := Run(Empty, actions).workers[id];
      && w.free + (if w.held then 1 else 0) + Granted(w.pc) + w.orphan + Count(Holding, w.jobs) == w.config.slots
      && Count(Active, w.jobs) <= w.config.slots
      && (w.pc.LoopHead? ==> w.free + Count(Holding, w.jobs) == w.config.slots)
  {
    Reachable(actions);
    hide Count;
  }

  /** A worker returns normally only when it was asked to stop or has scheduled its quota; it counted every
      job it scheduled, each of them acknowledged in its name exactly once. */
  lemma NormalReturn(actions: seq<Action>, id: WorkerId)
    requires id in Run(Empty, actions).workers && Run(Empty, actions).workers[id].pc.Returned?
    ensures var s := Run(Empty, actions);
      var w := s.workers[id];
      && w.pc.count == |w.jobs|
      && !w.jobFailed
      && (w.stop || (w.config.stopAfter.Some? && |w.jobs| == w.config.stopAfter.value))
      && (w.config.stopAfter.Some? ==> |w.jobs| <= w.config.stopAfter.value)
      && (forall i | 0 <= i < |w.jobs| :: Acknowledged(id, i, w.jobs[i].token) in s.log)
      && (forall k | 0 <= k < |s.log| :: s.log[k].worker == id ==> s.log[k].job < |w.jobs|)
      && (forall j, k | 0 <= j < k < |s.log| :: !(s.log[j].worker == s.log[k].worker && s.log[j].job == s.log[k].job))
  {
    Reachable(actions);
    var s := Run(Empty, actions);
    var w := s.workers[id];
    CountSplit(w.jobs);
    CountNone(Active, w.jobs);
    CountNone(Failing, w.jobs);
    hide Count, Run;
    forall i | 0 <= i < |w.jobs| ensures Acknowledged(id, i, w.jobs[i].token) in s.log {
      assert w.jobs[i] in w.jobs;
      assert JobLinked(s.log, s.returned, id, i, w.jobs[i]);
    }
    forall k | 0 <= k < |s.log| ensures s.log[k].worker == id ==> s.log[k].job < |w.jobs| {
      assert EntryOk(s.workers, s.returned, s.log[k]);
    }
  }

  /** A token becomes acknowledged only by the worker that owns the lease at that moment, only after
      an execution of it returned, and never twice for one job. */
  predicate RightfulAck(s: System, e: Acknowledged) {
    && s.owner == Some(e.worker) && e.token in s.processing && e.token in s.returned
    && e.worker in s.workers && e.job < |s.workers[e.worker].jobs|
    && s.workers[e.worker].jobs[e.job].token == e.token && !s.workers[e.worker].jobs[e.job].acked
  }

  lemma OnlyAcksLog(s: System, a: Action)
    requires !a.Acks?
    ensures Step(s, a).log == s.log
  {
    hide SegmentStep, EventStep, FaultStep, SetJob, StartJob, ReturnJob, FailJob, AckUnsent, Unwind, Live, InState, Gathered;
  }

  lemma AckIsRightful(s: System, id: WorkerId, i: nat, ack: AckCommand)
    requires Inv(s) && id in s.workers
    ensures var log := AckStep(s, id, s.workers[id], i, ack).log;
      log == s.log || (|log| == |s.log| + 1 && log[..|s.log|] == s.log && RightfulAck(s, log[|s.log|]))
  {
    if i < |s.workers[id].jobs| { LiveJobOk(s, id, i); }
    hide Inv, AckJob, SettleStray, RemoveFirst, Live;
  }

  lemma AckOnlyByOwner(actions: seq<Action>, a: Action)
    ensures var s := Run(Empty, actions);
      var log := Step(s, a).log;
      log == s.log || (|log| == |s.log| + 1 && log[..|s.log|] == s.log && RightfulAck(s, log[|s.log|]))
  {
    Reachable(actions);
    var s := Run(Empty, actions);
    hide Run, Inv, RightfulAck;
    if a.Acks? {
      if a.id in s.workers { AckIsRightful(s, a.id, a.job, a.ack); }
    } else {
      OnlyAcksLog(s, a);
    }
  }

  /** When a worker leaves its requeue loop, everything not acknowledged is pending again. */
  lemma RequeueRestores(actions: seq<Action>, id: WorkerId, ok: bool)
    requires var s := Run(Empty, actions);
      id in s.workers && s.workers[id].pc.Requeueing? && Step(s, Commands(id, RequeueOne(ok))).workers[id].pc.LoopHead?
    ensures var s := Run(Empty, actions); multiset(s.pending) + Acked(s.log) == s.enqueued
  {
    Reachable(actions);
    var s := Run(Empty, actions);
    hide Run, WorkersOk, LogOk;
    assert s.processing == [];
  }

  /** A failed job is never swallowed: the worker that waits for one always finds it among its jobs. */
  lemma FailureSurfaces(actions: seq<Action>, id: WorkerId)
    requires id in Run(Empty, actions).workers && Run(Empty, actions).workers[id].pc.FailDrain?
    ensures AnyFailed(Run(Empty, actions).workers[id])
  {
    Reachable(actions);
  }
}
