/**
  Claiming due crons. A round runs in one transaction. Which of the matching rows a select returns
  first is left open: a round is given the rows each select picked, without duplicates and within its
  limit. The computation of the next run is a parameter; it returns a time after the one it is given.
*/
module CronScheduler {
  import opened Wrappers

  datatype TickStatus = Started | Queued | Skipped | Ended

  datatype Tick = Tick(
    cronId: string, scheduledFor: int, status: TickStatus, updatedAt: int, runId: Option<string>,
    schedulerId: string)

  datatype Cron = Cron(schedule: string, timezone: string, enabled: bool, nextRunAt: int, endTime: Option<int>)

  // Ticks are numbered in order of creation; their ids are their places.
  datatype Store = Store(crons: map<string, Cron>, ticks: seq<Tick>)

  datatype Claim = Claim(tickId: nat, cronId: string, scheduledFor: int, runId: Option<string>)

  // The store and the local variables of one round.
  datatype Round = Round(store: Store, claimed: seq<Claim>, seen: set<string>)

  // compute_next_run_at(schedule, timezone, now), None for a ValueError.
  type Compute = (string, string, int) -> Option<int>

  ghost predicate Advances(compute: Compute) {
    forall s, z, t :: compute(s, z, t).Some? ==> compute(s, z, t).value > t
  }

  predicate Past(endTime: Option<int>, now: int) { endTime.Some? && endTime.value <= now }

  function ClaimOf(s: Store, id: nat): Claim
    requires id < |s.ticks|
  {
    Claim(id, s.ticks[id].cronId, s.ticks[id].scheduledFor, s.ticks[id].runId)
  }

  function Touched(s: Store, id: nat, tick: Tick): Store
    requires id < |s.ticks|
  {
    s.(ticks := s.ticks[id := tick])
  }

  // Take over a tick: it becomes this scheduler's, updated now.
  function TakenOver(r: Round, id: nat, now: int, schedulerId: string): Round
    requires id < |r.store.ticks|
  {
    var tick := r.store.ticks[id];
    Round(Touched(r.store, id, tick.(schedulerId := schedulerId, updatedAt := now)),
          r.claimed + [ClaimOf(r.store, id)], r.seen + {tick.cronId})
  }

  /** One stale 'started' tick. */
  function Reclaimed(r: Round, id: nat, now: int, schedulerId: string): Round
    requires id < |r.store.ticks|
  {
    var tick := r.store.ticks[id];
    if tick.cronId !in r.store.crons then r
    else if Past(r.store.crons[tick.cronId].endTime, now) then
      r.(store := Touched(r.store, id, tick.(status := Skipped, updatedAt := now)))
    else TakenOver(r, id, now, schedulerId)
  }

  /** One stale 'queued' tick: claimed again only while its run is pending and not in the queue. */
  function Requeued(r: Round, id: nat, now: int, schedulerId: string, idle: set<string>): Round
    requires id < |r.store.ticks|
  {
    var tick := r.store.ticks[id];
    if tick.cronId !in r.store.crons || tick.runId.None? || tick.runId.value !in idle then r
    else TakenOver(r, id, now, schedulerId)
  }

  // What a cron becomes once it has fired: advanced, or disabled with nothing left before its end.
  function Fired(cron: Cron, now: int, compute: Compute): Cron {
    match compute(cron.schedule, cron.timezone, now)
    case None => cron.(enabled := false)
    case Some(next) =>
      cron.(nextRunAt := next, enabled := cron.enabled && !(cron.endTime.Some? && next > cron.endTime.value))
  }

  /** One due cron. */
  function Fresh(r: Round, cronId: string, now: int, schedulerId: string, compute: Compute): Round
    requires cronId in r.store.crons
  {
    if cronId in r.seen then r
    else
      var cron, id := r.store.crons[cronId], |r.store.ticks|;
      var tick := Tick(cronId, cron.nextRunAt, Started, now, None, schedulerId);
      Round(Store(r.store.crons[cronId := Fired(cron, now, compute)], r.store.ticks + [tick]),
            r.claimed + [Claim(id, cronId, cron.nextRunAt, None)], r.seen)
  }

  function ReclaimAll(r: Round, ids: seq<nat>, now: int, schedulerId: string): (q: Round)
    requires forall i | 0 <= i < |ids| :: ids[i] < |r.store.ticks|
    ensures |q.store.ticks| == |r.store.ticks| && q.store.crons == r.store.crons
    decreases |ids|
  {
    if ids == [] then r else ReclaimAll(Reclaimed(r, ids[0], now, schedulerId), ids[1..], now, schedulerId)
  }

  function RequeueAll(r: Round, ids: seq<nat>, now: int, schedulerId: string, idle: set<string>): (q: Round)
    requires forall i | 0 <= i < |ids| :: ids[i] < |r.store.ticks|
    ensures |q.store.ticks| == |r.store.ticks| && q.store.crons == r.store.crons
    decreases |ids|
  {
    if ids == [] then r
    else RequeueAll(Requeued(r, ids[0], now, schedulerId, idle), ids[1..], now, schedulerId, idle)
  }

  function FreshAll(r: Round, cronIds: seq<string>, now: int, schedulerId: string, compute: Compute): (q: Round)
    requires forall i | 0 <= i < |cronIds| :: cronIds[i] in r.store.crons
    ensures q.store.crons.Keys == r.store.crons.Keys
    decreases |cronIds|
  {
    if cronIds == [] then r
    else FreshAll(Fresh(r, cronIds[0], now, schedulerId, compute), cronIds[1..], now, schedulerId, compute)
  }

  // ---- The selects

  predicate Stale(s: Store, id: nat, status: TickStatus, staleBefore: int) {
    id < |s.ticks| && s.ticks[id].status == status && s.ticks[id].updatedAt <= staleBefore
  }

  predicate Due(s: Store, cronId: string, now: int) {
    && cronId in s.crons && s.crons[cronId].enabled && s.crons[cronId].nextRunAt <= now
    && !Past(s.crons[cronId].endTime, now)
  }

  predicate Distinct<T(==)>(s: seq<T>) { forall i, j | 0 <= i < j < |s| :: s[i] != s[j] }

  datatype Picks = Picks(started: seq<nat>, queued: seq<nat>, due: seq<string>)

  // A round's settings: its clock, the age at which a tick is stale, the pending runs not in the queue.
  datatype Settings = Settings(limit: nat, now: int, staleAfter: nat, schedulerId: string, idle: set<string>)
  {
    function StaleBefore(): int { now - staleAfter }

    function Remaining(claimed: nat): nat { if claimed < limit then limit - claimed else 0 }
  }

  predicate PicksStarted(s: Store, g: Settings, ids: seq<nat>) {
    Distinct(ids) && |ids| <= g.limit && forall i | 0 <= i < |ids| :: Stale(s, ids[i], Started, g.StaleBefore())
  }

  predicate PicksQueued(s: Store, g: Settings, ids: seq<nat>, claimed: nat) {
    && Distinct(ids) && |ids| <= g.Remaining(claimed)
    && forall i | 0 <= i < |ids| :: Stale(s, ids[i], Queued, g.StaleBefore()) && s.ticks[ids[i]].runId.Some?
  }

  predicate PicksDue(s: Store, g: Settings, cronIds: seq<string>, claimed: nat) {
    Distinct(cronIds) && |cronIds| <= g.Remaining(claimed) && forall i | 0 <= i < |cronIds| :: Due(s, cronIds[i], g.now)
  }

  // The round after each of its first two loops, and at its end.
  function AfterStarted(s: Store, g: Settings, p: Picks): Round
    requires PicksStarted(s, g, p.started)
  {
    ReclaimAll(Round(s, [], {}), p.started, g.now, g.schedulerId)
  }

  function AfterQueued(s: Store, g: Settings, p: Picks): Round
    requires PicksStarted(s, g, p.started)
    requires var r := AfterStarted(s, g, p); PicksQueued(r.store, g, p.queued, |r.claimed|)
  {
    RequeueAll(AfterStarted(s, g, p), p.queued, g.now, g.schedulerId, g.idle)
  }

  predicate ValidPicks(s: Store, g: Settings, p: Picks) {
    && PicksStarted(s, g, p.started)
    && (var r := AfterStarted(s, g, p); PicksQueued(r.store, g, p.queued, |r.claimed|))
    && (var r := AfterQueued(s, g, p); PicksDue(r.store, g, p.due, |r.claimed|))
  }

  /** `claim_due_crons`. */
  function ClaimDue(s: Store, g: Settings, p: Picks, compute: Compute): Round
    requires ValidPicks(s, g, p)
  {
    FreshAll(AfterQueued(s, g, p), p.due, g.now, g.schedulerId, compute)
  }

  // ---- What else changes the tables

  /** The fields of `patch_cron` that the scheduler looks at, and the clock it is applied by. */
  datatype Patch = Patch(
    schedule: Option<string>, timezone: Option<string>, enabled: Option<bool>, endTime: Option<Option<int>>, now: int)

  function WithNext(cron: Cron, compute: Compute, now: int): Option<Cron> {
    match compute(cron.schedule, cron.timezone, now)
    case None => None
    case Some(next) => Some(cron.(nextRunAt := next))
  }

  // None when the patch is rejected. Its steps are taken in the source's order.
  function Patched(cron: Cron, p: Patch, compute: Compute): Option<Cron> {
    var zoned := if p.timezone.Some? then cron.(timezone := p.timezone.value) else cron;
    var scheduled := if p.schedule.Some? then WithNext(zoned.(schedule := p.schedule.value), compute, p.now) else Some(zoned);
    if scheduled.None? then None else
      var revived :=
        if p.enabled == Some(true) && !cron.enabled && p.schedule.None? then WithNext(scheduled.value, compute, p.now)
        else scheduled;
      if revived.None? then None else
        var switched := if p.enabled.Some? then revived.value.(enabled := p.enabled.value) else revived.value;
        var ended := if p.endTime.Some? then switched.(endTime := p.endTime.value) else switched;
        if p.timezone.Some? && p.schedule.None? && ended.enabled then WithNext(ended, compute, p.now) else Some(ended)
  }

  // Dispatch and reconciliation move a tick along and give it a run; `Removed` is a deleted cron.
  datatype Event =
    | ClaimRound(settings: Settings, picks: Picks)
    | Progress(tickId: nat, status: TickStatus, updatedAt: int, runId: Option<string>)
    | Created(cronId: string, cron: Cron)
    | PatchedBy(cronId: string, patch: Patch)
    | Removed(cronId: string)

  function Step(s: Store, e: Event, compute: Compute): Store
    requires Possible(s, e)
  {
    match e
    case ClaimRound(settings, picks) => ClaimDue(s, settings, picks, compute).store
    case Progress(id, status, updatedAt, runId) =>
      Touched(s, id, s.ticks[id].(status := status, updatedAt := updatedAt, runId := runId))
    case Created(cronId, cron) => s.(crons := s.crons[cronId := cron])
    case PatchedBy(cronId, patch) =>
      (match Patched(s.crons[cronId], patch, compute)
       case None => s
       case Some(cron) => s.(crons := s.crons[cronId := cron]))
    case Removed(cronId) => s.(crons := s.crons - {cronId})
  }

  // Cron ids are never used again, not even after a deletion.
  predicate Possible(s: Store, e: Event) {
    match e
    case ClaimRound(settings, picks) => ValidPicks(s, settings, picks)
    case Progress(id, _, _, _) => id < |s.ticks|
    case Created(cronId, _) => cronId !in s.crons && forall i | 0 <= i < |s.ticks| :: s.ticks[i].cronId != cronId
    case PatchedBy(cronId, _) => cronId in s.crons
    case Removed(cronId) => cronId in s.crons
  }
}
