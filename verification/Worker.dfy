/**
  The bounded-concurrency worker as a step system.

  Each action is what one coroutine does between two awaits of `run_worker`, one step of a
  job task, one Redis command taking effect, or one thing the environment does (the lease
  expires, a signal arrives, a task is cancelled, a process crashes, a worker starts).
  `Step` is total: an action that is not enabled changes nothing, so a run is any sequence
  of actions whatsoever.
*/
module WorkerModel {
  import opened Wrappers

  type Token = string
  type WorkerId = nat

  // ---------------------------------------------------------------- one worker process

  datatype JobState =
    | Created       // the task exists, its coroutine has not run yet
    | Executing     // inside execute_run_job
    | Acking        // execution returned, the acknowledgement is in flight
    | Succeeded
    | Failed
    | NeverStarted  // cancelled before its coroutine ran: its `finally` never runs either
    | Reaped        // no longer in active_jobs

  /** A job task. `acked` and `stray` are history: its acknowledgement took effect; its acknowledgement
      failed before it took effect and the command may still reach the server. */
  datatype Job = Job(token: Token, state: JobState, acked: bool, stray: bool)

  // The outcome of the reserve task: a token, a poll timeout, or an exception.
  datatype Reservation = Unanswered | Nothing | Got(token: Token) | Broken

  // Why a `finally` block is running.
  datatype Verdict = Use | Signalled | Cancelled

  datatype Pc =
    | Locking
    | Requeueing
    | LoopHead
    | SlotWait(granted: bool)
    | SlotSettle(granted: bool, why: Verdict)
    | ReserveWait(reply: Reservation)
    | ReserveSettle(reply: Reservation, why: Verdict)
    | FailDrain(releases: bool)
    | Drain
    | Cleanup
    | CleanupGather
    | Returned(count: nat)
    | Raised
    | Crashed

  datatype Config = Config(slots: nat, stopAfter: Option<nat>)

  /** The locals of `run_worker`; `free` is the semaphore and `held` is `slot_acquired` not yet
      transferred. `jobs` lists every job scheduled so far: `scheduled` is its length and `active_jobs`
      are the jobs not yet reaped. `orphan`, `waiter` and `strayReserve` are what a cancelled or
      crashed coroutine leaves behind: a permit, an acquire task, a reserve command. */
  datatype Worker = Worker(
    config: Config, pc: Pc, free: nat, held: bool, orphan: nat, waiter: bool, strayReserve: bool,
    stop: bool, lockLost: bool, jobFailed: bool, raising: bool, processed: nat, jobs: seq<Job>)

  function NewWorker(config: Config): Worker {
    Worker(config, Locking, config.slots, false, 0, false, false, false, false, false, false, 0, [])
  }

  // The sets of jobs the worker's accounting talks about.
  datatype Kind = Active | Holding | Finished | Failing | Counted

  predicate Is(kind: Kind, j: Job) {
    match kind
    case Active => !j.state.Reaped?
    case Holding => !j.state.Succeeded? && !j.state.Failed? && !j.state.Reaped?
    case Finished => j.state.Succeeded? || j.state.Failed?
    case Failing => j.state.Failed?
    case Counted => j.state.Reaped?
  }

  function Count(kind: Kind, jobs: seq<Job>): nat {
    if jobs == [] then 0 else Count(kind, jobs[..|jobs| - 1]) + (if Is(kind, jobs[|jobs| - 1]) then 1 else 0)
  }

  predicate AnySignal(w: Worker) { w.stop || w.lockLost || w.jobFailed }

  predicate Quota(w: Worker) { w.config.stopAfter.Some? && |w.jobs| >= w.config.stopAfter.value }

  function Granted(pc: Pc): nat {
    if (pc.SlotWait? || pc.SlotSettle?) && pc.granted then 1 else 0
  }

  // ---------------------------------------------------------------- segments of run_worker

  /** Leaves the main block with an exception; `releases` says whether the inner `finally` runs. */
  function Unwind(w: Worker, releases: bool): (r: Worker)
    ensures r.jobs == w.jobs
  {
    var w := if releases && w.held then w.(free := w.free + 1, held := false) else w;
    w.(pc := Cleanup, raising := true)
  }

  function ReleaseTo(w: Worker, pc: Pc): (r: Worker)
    ensures r.jobs == w.jobs
  {
    if w.held then w.(free := w.free + 1, held := false, pc := pc) else w.(pc := pc)
  }

  /** Every finished task leaves `active_jobs`. */
  function DropFinished(jobs: seq<Job>): (r: seq<Job>)
    ensures |r| == |jobs|
  {
    seq(|jobs|, i requires 0 <= i < |jobs| => if Is(Finished, jobs[i]) then jobs[i].(state := Reaped) else jobs[i])
  }

  predicate AnyFailed(w: Worker) { Count(Failing, w.jobs) > 0 }

  /** `_reap_jobs`: drop every finished task; the count is added only when none of them failed. */
  function Reap(w: Worker): Worker {
    w.(jobs := DropFinished(w.jobs),
       processed := if AnyFailed(w) then w.processed else w.processed + Count(Finished, w.jobs))
  }

  function FromLoopHead(w: Worker): Worker {
    if w.stop || Quota(w) then w.(pc := Drain)
    else
      var r := Reap(w);
      if AnyFailed(w) then Unwind(r, false)
      else if w.lockLost then Unwind(r, false)
      else if w.jobFailed then r.(pc := FailDrain(false))
      else r.(pc := SlotWait(false))
  }

  function AfterSlot(w: Worker): (r: Worker)
    ensures r.jobs == w.jobs || r.jobs == DropFinished(w.jobs)
  {
    if w.lockLost then Unwind(w, false)
    else if w.jobFailed then w.(pc := FailDrain(false))
    else if w.stop then w.(pc := Drain)
    else if !w.held then w.(pc := LoopHead)
    else
      var r := Reap(w);
      if AnyFailed(w) then Unwind(r, true)
      else if Quota(r) then ReleaseTo(r, Drain)
      else r.(pc := ReserveWait(Unanswered))
  }

  function SlotStep(w: Worker): Worker
    requires w.pc.SlotWait? && (w.pc.granted || AnySignal(w))
  {
    if AnySignal(w) then w.(pc := SlotSettle(w.pc.granted, Signalled))
    else w.(held := true, pc := SlotSettle(false, Use))
  }

  function SlotFinish(w: Worker): (r: Worker)
    requires w.pc.SlotSettle?
    ensures r.jobs == w.jobs || r.jobs == DropFinished(w.jobs)
  {
    var v := if w.pc.granted then w.(free := w.free + 1, pc := LoopHead) else w.(pc := LoopHead);
    if w.pc.why == Cancelled then Unwind(v, false) else AfterSlot(v)
  }

  function AfterReserve(w: Worker, reply: Option<Token>): (r: Worker)
    ensures r.jobs == w.jobs || (reply.Some? && r.jobs == w.jobs + [Job(reply.value, Created, false, false)])
  {
    if w.lockLost then Unwind(w, true)
    else if w.jobFailed then w.(pc := FailDrain(true))
    else if w.stop then ReleaseTo(w, Drain)
    else match reply
      case None => ReleaseTo(w, LoopHead)
      case Some(token) =>
        w.(jobs := w.jobs + [Job(token, Created, false, false)], held := false, pc := LoopHead)
  }

  function ReserveFinish(w: Worker): Worker
    requires w.pc.ReserveSettle?
  {
    var r := if w.pc.reply == Unanswered then w.(strayReserve := true) else w;
    if w.pc.why == Cancelled || (w.pc.why == Use && w.pc.reply == Broken) then Unwind(r, true)
    else if w.pc.why == Use && w.pc.reply.Got? then AfterReserve(r, Some(w.pc.reply.token))
    else AfterReserve(r, None)
  }

  function FailDrainStep(w: Worker): Worker
    requires w.pc.FailDrain?
  {
    if Count(Active, w.jobs) == 0 then Unwind(w, w.pc.releases)
    else if AnyFailed(w) then Unwind(Reap(w), w.pc.releases)
    else Reap(w)
  }

  function DrainStep(w: Worker): Worker
    requires w.pc.Drain?
  {
    if w.lockLost then Unwind(w, false)
    else if Count(Active, w.jobs) == 0 then w.(pc := Cleanup)
    else if AnyFailed(w) then Unwind(Reap(w), false)
    else Reap(w)
  }

  /** `for task in active_jobs: task.cancel()`. */
  function NeverStart(jobs: seq<Job>): (r: seq<Job>)
    ensures |r| == |jobs|
  {
    seq(|jobs|, i requires 0 <= i < |jobs| => if jobs[i].state.Created? then jobs[i].(state := NeverStarted) else jobs[i])
  }

  function CancelJobs(w: Worker): Worker { w.(pc := CleanupGather, jobs := NeverStart(w.jobs)) }

  predicate Gathered(w: Worker) { forall j | j in w.jobs :: !Is(Holding, j) || j.state.NeverStarted? }

  /** Cancellation of the `run_worker` coroutine, delivered at the await it is suspended on. */
  function CancelLoop(w: Worker): (r: Worker)
    ensures r.jobs == w.jobs
  {
    match w.pc
    case Locking => w.(pc := Raised, raising := true)
    case Requeueing => Unwind(w, false)
    case SlotWait(granted) => w.(pc := SlotSettle(granted, Cancelled))
    case SlotSettle(granted, why) =>
      Unwind(w.(orphan := w.orphan + Granted(w.pc), waiter := why != Use && !granted), false)
    case ReserveWait(reply) => w.(pc := ReserveSettle(reply, Cancelled))
    case ReserveSettle(reply, _) => Unwind(w.(strayReserve := reply == Unanswered), true)
    case FailDrain(releases) => Unwind(w, releases)
    case Drain => Unwind(w, false)
    case _ => w
  }

  /** The process dies; commands it had sent may still reach the server. */
  function Crash(w: Worker): Worker {
    w.(pc := Crashed,
       strayReserve := w.strayReserve || ((w.pc.ReserveWait? || w.pc.ReserveSettle?) && w.pc.reply == Unanswered),
       jobs := seq(|w.jobs|, i requires 0 <= i < |w.jobs| =>
                 if w.jobs[i].state.Acking? then w.jobs[i].(state := Failed, stray := true) else w.jobs[i]))
  }

  // ---------------------------------------------------------------- segments of a job task

  predicate InState(w: Worker, i: nat, state: JobState) { i < |w.jobs| && w.jobs[i].state == state }

  /** The task ends one step in `job.state`, returning its permit if that state is final. */
  function SetJob(w: Worker, i: nat, job: Job): Worker
    requires i < |w.jobs|
  {
    w.(jobs := w.jobs[i := job], free := if Is(Holding, job) then w.free else w.free + 1,
       jobFailed := w.jobFailed || job.state.Failed?)
  }

  function FailJob(w: Worker, i: nat): Worker
    requires i < |w.jobs|
  {
    SetJob(w, i, w.jobs[i].(state := Failed))
  }

  function StartJob(w: Worker, i: nat): Worker
    requires i < |w.jobs|
  {
    if w.lockLost then FailJob(w, i) else SetJob(w, i, w.jobs[i].(state := Executing))
  }

  function ReturnJob(w: Worker, i: nat): Worker
    requires i < |w.jobs|
  {
    if w.lockLost then FailJob(w, i) else SetJob(w, i, w.jobs[i].(state := Acking))
  }

  /** The acknowledgement took effect or was refused, and its reply came back or was lost. */
  function AckJob(w: Worker, i: nat, effect: bool, delivered: bool): Worker
    requires i < |w.jobs|
  {
    SetJob(w.(lockLost := w.lockLost || (delivered && !effect)), i,
           w.jobs[i].(state := if effect && delivered then Succeeded else Failed, acked := w.jobs[i].acked || effect))
  }

  /** The acknowledgement raised before it took effect. */
  function AckUnsent(w: Worker, i: nat): Worker
    requires i < |w.jobs|
  {
    SetJob(w, i, w.jobs[i].(state := Failed, stray := true))
  }

  /** An acknowledgement whose caller is gone reaches the server. */
  function SettleStray(w: Worker, i: nat, effect: bool): Worker
    requires i < |w.jobs|
  {
    w.(jobs := w.jobs[i := w.jobs[i].(stray := false, acked := w.jobs[i].acked || effect)])
  }

  // ---------------------------------------------------------------- the whole deployment

  datatype Acknowledged = Acknowledged(worker: WorkerId, job: nat, token: Token)

  /** `log`, `enqueued` and `returned` are history: every acknowledgement that took effect, every
      token ever enqueued, and the tokens of the executions that have returned. */
  datatype System = System(
    pending: seq<Token>, processing: seq<Token>, owner: Option<WorkerId>, workers: map<WorkerId, Worker>,
    log: seq<Acknowledged>, enqueued: multiset<Token>, returned: set<Token>)

  const Empty := System([], [], None, map[], [], multiset{}, {})

  function Acked(log: seq<Acknowledged>): multiset<Token> {
    if log == [] then multiset{} else Acked(log[..|log| - 1]) + multiset{log[|log| - 1].token}
  }

  // The coroutine of run_worker runs from one await to the next.
  datatype Segment = Head | SlotReturn | ReserveReturn | FailDraining | Draining | CancelAll

  // What happens to a worker while its coroutine is suspended.
  datatype Event = StopSignal | HeartbeatFails | GrantSlot | SlotDecide | ReserveTimesOut(ok: bool) | ReserveDecide

  datatype Fault = Crashing | Cancelling

  // A Redis command takes effect; its reply may be lost.
  datatype Command = Lock(delivered: bool) | RequeueOne(ok: bool) | ReserveTakes(delivered: bool) | StrayReserve | Close(released: bool)

  datatype TaskStep = Starts | Returns | Raises | AckRaises

  datatype AckCommand = Ack(delivered: bool) | StrayAck

  datatype Action =
    | Enqueue(token: Token)
    | LeaseExpires
    | Spawn(id: WorkerId, config: Config)
    | Resume(id: WorkerId, segment: Segment)
    | Happens(id: WorkerId, event: Event)
    | Strikes(id: WorkerId, fault: Fault)
    | Commands(id: WorkerId, command: Command)
    | JobSteps(id: WorkerId, job: nat, step: TaskStep)
    | Acks(id: WorkerId, job: nat, ack: AckCommand)

  // Redis commands.

  /** BRPOPLPUSH queue processing. */
  function TakeOne(s: System): System
    requires s.pending != []
  {
    var last := |s.pending| - 1;
    s.(pending := s.pending[..last], processing := [s.pending[last]] + s.processing)
  }

  /** RPOPLPUSH processing queue. */
  function PutBackOne(s: System): System
    requires s.processing != []
  {
    var last := |s.processing| - 1;
    s.(processing := s.processing[..last], pending := [s.processing[last]] + s.pending)
  }

  /** LREM list 1 token. */
  function RemoveFirst(list: seq<Token>, token: Token): seq<Token> {
    if list == [] then [] else if list[0] == token then list[1..] else [list[0]] + RemoveFirst(list[1..], token)
  }

  /** The acknowledgement script: only the lock owner may remove a token that is being processed. */
  predicate AckAllowed(s: System, id: WorkerId, token: Token) {
    s.owner == Some(id) && token in s.processing
  }

  function AckEffect(s: System, id: WorkerId, job: nat, token: Token): System {
    s.(processing := RemoveFirst(s.processing, token), log := s.log + [Acknowledged(id, job, token)])
  }

  function With(s: System, id: WorkerId, w: Worker): System { s.(workers := s.workers[id := w]) }

  predicate Live(w: Worker) { !w.pc.Returned? && !w.pc.Raised? && !w.pc.Crashed? }

  function FaultStep(w: Worker, fault: Fault): Worker {
    if fault.Cancelling? then CancelLoop(w) else if Live(w) then Crash(w) else w
  }

  function SegmentStep(w: Worker, segment: Segment): Worker {
    match segment
    case Head => if w.pc.LoopHead? then FromLoopHead(w) else w
    case SlotReturn => if w.pc.SlotSettle? then SlotFinish(w) else w
    case ReserveReturn => if w.pc.ReserveSettle? then ReserveFinish(w) else w
    case FailDraining =>
      if w.pc.FailDrain? && (Count(Active, w.jobs) == 0 || Count(Finished, w.jobs) > 0) then FailDrainStep(w) else w
    case Draining =>
      if w.pc.Drain? && (w.lockLost || Count(Active, w.jobs) == 0 || Count(Finished, w.jobs) > 0) then DrainStep(w) else w
    case CancelAll => if w.pc.Cleanup? then CancelJobs(w) else w
  }

  /** Flags are set, permits are granted, and the first of the awaited tasks to complete decides how
      the wait ends. */
  function EventStep(w: Worker, event: Event): (r: Worker)
    ensures r.jobs == w.jobs && r.config == w.config
  {
    match event
    case StopSignal => if Live(w) then w.(stop := true) else w
    case HeartbeatFails => if Live(w) && !w.pc.Locking? then w.(lockLost := true) else w
    case GrantSlot =>
      if w.free == 0 then w
      else if w.pc.SlotWait? && !w.pc.granted then w.(free := w.free - 1, pc := SlotWait(true))
      else if w.pc.SlotSettle? && !w.pc.granted && w.pc.why != Use then
        w.(free := w.free - 1, pc := SlotSettle(true, w.pc.why))
      else if w.waiter && Live(w) then w.(free := w.free - 1, waiter := false, orphan := w.orphan + 1)
      else w
    case SlotDecide => if w.pc.SlotWait? && (w.pc.granted || AnySignal(w)) then SlotStep(w) else w
    case ReserveTimesOut(ok) =>
      if w.pc.ReserveWait? && w.pc.reply == Unanswered then w.(pc := ReserveWait(if ok then Nothing else Broken)) else w
    case ReserveDecide =>
      if w.pc.ReserveWait? && (w.pc.reply != Unanswered || AnySignal(w)) then
        w.(pc := ReserveSettle(w.pc.reply, if AnySignal(w) then Signalled else Use))
      else w
  }

  function CommandStep(s: System, id: WorkerId, w: Worker, command: Command): System {
    match command
    case Lock(delivered) =>
      if !w.pc.Locking? then s
      else
        var locked := if s.owner.Some? then s else s.(owner := Some(id));
        With(locked, id, if s.owner.None? && delivered then w.(pc := Requeueing) else w.(pc := Raised, raising := true))
    case RequeueOne(ok) =>
      if !w.pc.Requeueing? then s
      else if !ok then With(s, id, Unwind(w, false))
      else if s.processing == [] then With(s, id, w.(pc := LoopHead))
      else PutBackOne(s)
    case ReserveTakes(delivered) =>
      if s.pending == [] then s
      else
        var reply := if delivered then Got(s.pending[|s.pending| - 1]) else Broken;
        if w.pc.ReserveWait? && w.pc.reply == Unanswered then With(TakeOne(s), id, w.(pc := ReserveWait(reply)))
        else if w.pc.ReserveSettle? && w.pc.reply == Unanswered then
          With(TakeOne(s), id, w.(pc := ReserveSettle(reply, w.pc.why)))
        else s
    case StrayReserve =>
      if w.strayReserve && s.pending != [] then With(TakeOne(s), id, w.(strayReserve := false)) else s
    case Close(released) =>
      if w.pc.CleanupGather? && Gathered(w) then
        With(if released && s.owner == Some(id) then s.(owner := None) else s, id,
             w.(pc := if w.raising then Raised else Returned(w.processed)))
      else s
  }

  function TaskState(step: TaskStep): JobState {
    match step case Starts => Created case Returns => Executing case Raises => Executing case AckRaises => Acking
  }

  function JobStep(s: System, id: WorkerId, w: Worker, job: nat, step: TaskStep): System {
    if !Live(w) || !InState(w, job, TaskState(step)) then s
    else match step
      case Starts => With(s, id, StartJob(w, job))
      case Returns => With(s.(returned := s.returned + {w.jobs[job].token}), id, ReturnJob(w, job))
      case Raises => With(s, id, FailJob(w, job))
      case AckRaises => With(s, id, AckUnsent(w, job))
  }

  function AckStep(s: System, id: WorkerId, w: Worker, job: nat, ack: AckCommand): System {
    if job >= |w.jobs| || (if ack.Ack? then !Live(w) || !w.jobs[job].state.Acking? else !w.jobs[job].stray) then s
    else
      var token := w.jobs[job].token;
      var effect := AckAllowed(s, id, token);
      With(if effect then AckEffect(s, id, job, token) else s, id,
           if ack.Ack? then AckJob(w, job, effect, ack.delivered) else SettleStray(w, job, effect))
  }

  function Step(s: System, a: Action): System {
    match a
    case Enqueue(token) => s.(pending := [token] + s.pending, enqueued := s.enqueued + multiset{token})
    case LeaseExpires => s.(owner := None)
    case Spawn(id, config) => if id in s.workers || config.slots < 1 then s else With(s, id, NewWorker(config))
    case Resume(id, segment) => if id in s.workers then With(s, id, SegmentStep(s.workers[id], segment)) else s
    case Happens(id, event) => if id in s.workers then With(s, id, EventStep(s.workers[id], event)) else s
    case Strikes(id, fault) => if id in s.workers then With(s, id, FaultStep(s.workers[id], fault)) else s
    case Commands(id, command) => if id in s.workers then CommandStep(s, id, s.workers[id], command) else s
    case JobSteps(id, job, step) => if id in s.workers then JobStep(s, id, s.workers[id], job, step) else s
    case Acks(id, job, ack) => if id in s.workers then AckStep(s, id, s.workers[id], job, ack) else s
  }

  function Run(s: System, actions: seq<Action>): System
    decreases |actions|
  {
    if actions == [] then s else Run(Step(s, actions[0]), actions[1..])
  }
}
