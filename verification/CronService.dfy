/** The claim as it runs on the two tables, and the recurrence plugged into it. */
module CronService {
  import opened Wrappers
  import opened CronScheduler
  import CronClaims
  import CronRule
  import CronNext

  // What the scheduler needs to know of zones and schedules: the rule a schedule text stands for, a
  // zone's fixed offset, and the local time of a UTC instant, not valid outside the calendar.
  datatype Zones = Zones(
    ruleOf: string -> CronRule.Rule, offsetOf: string -> int, localOf: (string, int) -> CronRule.Local)

  ghost predicate Faithful(z: Zones) {
    forall zone, t ::
      z.localOf(zone, t).Valid() ==> z.localOf(zone, t).Instant() - z.offsetOf(zone) == t
  }

  function ComputeNext(z: Zones, schedule: string, zone: string, now: int): Option<int> {
    var local := z.localOf(zone, now);
    if !local.Valid() then None else
      match CronRule.NextRun(z.ruleOf(schedule), local, z.offsetOf(zone))
      case Ok(next) => Some(next)
      case Err(_) => None
  }

  /** The recurrence is a computation the scheduler's theorems apply to. */
  lemma RecurrenceAdvances(z: Zones)
    requires Faithful(z)
    ensures Advances((s, zone, t) => ComputeNext(z, s, zone, t))
  {
    forall s, zone, t | ComputeNext(z, s, zone, t).Some? ensures ComputeNext(z, s, zone, t).value > t {
      var local := z.localOf(zone, t);
      CronNext.NextRunIsAfterNow(z.ruleOf(s), local, z.offsetOf(zone));
    }
  }

  class Scheduler {
    var crons: map<string, Cron>
    var ticks: seq<Tick>
    const compute: Compute

    constructor (compute: Compute)
      ensures Now() == Store(map[], []) && this.compute == compute
    {
      crons, ticks, this.compute := map[], [], compute;
    }

    function Now(): Store
      reads this
    {
      Store(crons, ticks)
    }

    /** The first loop: stale 'started' ticks. */
    method Reclaim(ids: seq<nat>, now: int, schedulerId: string) returns (claimed: seq<Claim>, seen: set<string>)
      requires forall i | 0 <= i < |ids| :: ids[i] < |ticks|
      modifies this`ticks
      ensures Round(Now(), claimed, seen) == ReclaimAll(Round(old(Now()), [], {}), ids, now, schedulerId)
    {
      claimed, seen := [], {};
      assert ids[0..] == ids;
      for k := 0 to |ids|
        invariant |ticks| == |old(ticks)|
        invariant ReclaimAll(Round(Now(), claimed, seen), ids[k..], now, schedulerId) ==
                  ReclaimAll(Round(old(Now()), [], {}), ids, now, schedulerId)
      {
        assert ids[k..][1..] == ids[k + 1..];
        var id := ids[k];
        var tick := ticks[id];
        if tick.cronId !in crons { continue; }
        var row := crons[tick.cronId];
        if row.endTime.Some? && row.endTime.value <= now {
          ticks := ticks[id := tick.(status := Skipped, updatedAt := now)];
          continue;
        }
        ticks := ticks[id := tick.(schedulerId := schedulerId, updatedAt := now)];
        claimed := claimed + [Claim(id, tick.cronId, tick.scheduledFor, tick.runId)];
        seen := seen + {tick.cronId};
      }
    }

    /** The second loop: stale 'queued' ticks whose run is pending and not in the queue. */
    method Requeue(ids: seq<nat>, now: int, schedulerId: string, idle: set<string>,
                   before: seq<Claim>, seenBefore: set<string>)
      returns (claimed: seq<Claim>, seen: set<string>)
      requires forall i | 0 <= i < |ids| :: ids[i] < |ticks|
      modifies this`ticks
      ensures Round(Now(), claimed, seen) ==
              RequeueAll(Round(old(Now()), before, seenBefore), ids, now, schedulerId, idle)
    {
      claimed, seen := before, seenBefore;
      assert ids[0..] == ids;
      for k := 0 to |ids|
        invariant |ticks| == |old(ticks)|
        invariant RequeueAll(Round(Now(), claimed, seen), ids[k..], now, schedulerId, idle) ==
                  RequeueAll(Round(old(Now()), before, seenBefore), ids, now, schedulerId, idle)
      {
        assert ids[k..][1..] == ids[k + 1..];
        var id := ids[k];
        var tick := ticks[id];
        if tick.cronId !in crons { continue; }
        if tick.runId.None? || tick.runId.value !in idle { continue; }
        ticks := ticks[id := tick.(schedulerId := schedulerId, updatedAt := now)];
        claimed := claimed + [Claim(id, tick.cronId, tick.scheduledFor, tick.runId)];
        seen := seen + {tick.cronId};
      }
    }

    /** The third loop: due crons get a tick and move on, or are disabled. */
    method Fire(cronIds: seq<string>, now: int, schedulerId: string, before: seq<Claim>, seen: set<string>)
      returns (claimed: seq<Claim>)
      requires forall i | 0 <= i < |cronIds| :: cronIds[i] in crons
      modifies this
      ensures Round(Now(), claimed, seen) ==
              FreshAll(Round(old(Now()), before, seen), cronIds, now, schedulerId, compute)
    {
      claimed := before;
      assert cronIds[0..] == cronIds;
      for k := 0 to |cronIds|
        invariant forall i | 0 <= i < |cronIds| :: cronIds[i] in crons
        invariant FreshAll(Round(Now(), claimed, seen), cronIds[k..], now, schedulerId, compute) ==
                  FreshAll(Round(old(Now()), before, seen), cronIds, now, schedulerId, compute)
      {
        assert cronIds[k..][1..] == cronIds[k + 1..];
        var cronId := cronIds[k];
        if cronId in seen { continue; }
        var row := crons[cronId];
        ticks := ticks + [Tick(cronId, row.nextRunAt, Started, now, None, schedulerId)];
        claimed := claimed + [Claim(|ticks| - 1, cronId, row.nextRunAt, None)];
        var next := compute(row.schedule, row.timezone, now);
        if next.None? {
          row := row.(enabled := false);
        } else {
          row := row.(nextRunAt := next.value);
          if row.endTime.Some? && row.nextRunAt > row.endTime.value { row := row.(enabled := false); }
        }
        crons := crons[cronId := row];
      }
    }

    /** `claim_due_crons`. */
    method ClaimDueCrons(g: Settings, picks: Picks) returns (claimed: seq<Claim>)
      requires ValidPicks(Now(), g, picks)
      modifies this
      ensures
        var round := ClaimDue(old(Now()), g, picks, compute);
        Now() == round.store && claimed == round.claimed
      // Stated outright for a store that meets the invariant.
      ensures old(CronClaims.Inv(Now())) && Advances(compute) ==>
        CronClaims.Inv(Now()) && |claimed| <= g.limit && CronClaims.SameOccurrences(old(ticks), ticks)
    {
      hide ReclaimAll, RequeueAll, FreshAll, CronClaims.Inv, CronClaims.SameOccurrences, Advances;
      ghost var before := Now();
      var seen;
      claimed, seen := Reclaim(picks.started, g.now, g.schedulerId);
      claimed, seen := Requeue(picks.queued, g.now, g.schedulerId, g.idle, claimed, seen);
      if g.Remaining(|claimed|) > 0 {
        claimed := Fire(picks.due, g.now, g.schedulerId, claimed, seen);
      } else {
        assert picks.due == [];
        NoneDue(AfterQueued(before, g, picks), g.now, g.schedulerId, compute);
      }
      if CronClaims.Inv(before) && Advances(compute) { CronClaims.RoundIsRight(before, g, picks, compute); }
    }
  }

  lemma NoneDue(r: Round, now: int, schedulerId: string, compute: Compute)
    ensures FreshAll(r, [], now, schedulerId, compute) == r
  {}
}
