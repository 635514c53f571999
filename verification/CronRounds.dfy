/** What one claiming round does to every tick and every cron, read off the tables before it. */
module CronRounds {
  import opened Wrappers
  import opened CronScheduler
  import opened CronClaims

  // ---- Old ticks

  // A stale started tick is taken over while its cron exists and has not passed its end.
  predicate StartedTaken(s: Store, g: Settings, t: Tick) {
    t.cronId in s.crons && (s.crons[t.cronId].endTime.Some? ==> g.now < s.crons[t.cronId].endTime.value)
  }

  // A stale queued tick is taken over while its cron exists and its run waits outside the queue.
  predicate QueuedTaken(s: Store, g: Settings, t: Tick) {
    t.cronId in s.crons && t.runId.Some? && t.runId.value in g.idle
  }

  function Taken(t: Tick, g: Settings): Tick { t.(schedulerId := g.schedulerId, updatedAt := g.now) }

  /** A picked started tick is taken over, skipped when its cron has passed its end, or left without a cron. */
  function StartedAfter(s: Store, g: Settings, t: Tick): Tick {
    if t.cronId !in s.crons then t
    else if StartedTaken(s, g, t) then Taken(t, g)
    else t.(status := Skipped, updatedAt := g.now)
  }

  function QueuedAfter(s: Store, g: Settings, t: Tick): Tick { if QueuedTaken(s, g, t) then Taken(t, g) else t }

  ghost predicate InRange(ids: seq<nat>, s: Store) { forall i | 0 <= i < |ids| :: ids[i] < |s.ticks| }

  lemma {:induction false} ReclaimsTicks(r: Round, g: Settings, ids: seq<nat>, t: nat)
    requires InRange(ids, r.store) && Distinct(ids) && t < |r.store.ticks|
    ensures
      var q := ReclaimAll(r, ids, g.now, g.schedulerId);
      q.store.ticks[t] == if t in ids then StartedAfter(r.store, g, r.store.ticks[t]) else r.store.ticks[t]
    decreases |ids|
  {
    if ids != [] {
      var next := Reclaimed(r, ids[0], g.now, g.schedulerId);
      assert ids == [ids[0]] + ids[1..];
      ReclaimsTicks(next, g, ids[1..], t);
      assert ids[0] !in ids[1..];
    }
  }

  lemma {:induction false} ReclaimsClaims(r: Round, g: Settings, ids: seq<nat>, c: Claim)
    requires InRange(ids, r.store) && Distinct(ids)
    ensures
      var q := ReclaimAll(r, ids, g.now, g.schedulerId);
      c in q.claimed <==>
        || c in r.claimed
        || (c.tickId in ids && StartedTaken(r.store, g, r.store.ticks[c.tickId]) && c == ClaimOf(r.store, c.tickId))
    decreases |ids|
  {
    if ids != [] {
      var next := Reclaimed(r, ids[0], g.now, g.schedulerId);
      assert ids == [ids[0]] + ids[1..];
      ReclaimsClaims(next, g, ids[1..], c);
      assert ids[0] !in ids[1..];
    }
  }

  lemma {:induction false} ReclaimsSeen(r: Round, g: Settings, ids: seq<nat>, cronId: string)
    requires InRange(ids, r.store) && Distinct(ids)
    ensures
      var q := ReclaimAll(r, ids, g.now, g.schedulerId);
      cronId in q.seen <==>
        cronId in r.seen ||
        exists id <- ids :: StartedTaken(r.store, g, r.store.ticks[id]) && r.store.ticks[id].cronId == cronId
    decreases |ids|
  {
    if ids != [] {
      var next := Reclaimed(r, ids[0], g.now, g.schedulerId);
      assert ids == [ids[0]] + ids[1..];
      ReclaimsSeen(next, g, ids[1..], cronId);
      assert forall id <- ids[1..] :: next.store.ticks[id] == r.store.ticks[id];
    }
  }

  lemma {:induction false} RequeuesTicks(r: Round, g: Settings, ids: seq<nat>, t: nat)
    requires InRange(ids, r.store) && Distinct(ids) && t < |r.store.ticks|
    ensures
      var q := RequeueAll(r, ids, g.now, g.schedulerId, g.idle);
      q.store.ticks[t] == if t in ids then QueuedAfter(r.store, g, r.store.ticks[t]) else r.store.ticks[t]
    decreases |ids|
  {
    if ids != [] {
      var next := Requeued(r, ids[0], g.now, g.schedulerId, g.idle);
      assert ids == [ids[0]] + ids[1..];
      RequeuesTicks(next, g, ids[1..], t);
      assert ids[0] !in ids[1..];
    }
  }

  lemma {:induction false} RequeuesClaims(r: Round, g: Settings, ids: seq<nat>, c: Claim)
    requires InRange(ids, r.store) && Distinct(ids)
    ensures
      var q := RequeueAll(r, ids, g.now, g.schedulerId, g.idle);
      c in q.claimed <==>
        || c in r.claimed
        || (c.tickId in ids && QueuedTaken(r.store, g, r.store.ticks[c.tickId]) && c == ClaimOf(r.store, c.tickId))
    decreases |ids|
  {
    if ids != [] {
      var next := Requeued(r, ids[0], g.now, g.schedulerId, g.idle);
      assert ids == [ids[0]] + ids[1..];
      RequeuesClaims(next, g, ids[1..], c);
      assert ids[0] !in ids[1..];
    }
  }

  lemma {:induction false} RequeuesSeen(r: Round, g: Settings, ids: seq<nat>, cronId: string)
    requires InRange(ids, r.store) && Distinct(ids)
    ensures
      var q := RequeueAll(r, ids, g.now, g.schedulerId, g.idle);
      cronId in q.seen <==>
        cronId in r.seen ||
        exists id <- ids :: QueuedTaken(r.store, g, r.store.ticks[id]) && r.store.ticks[id].cronId == cronId
    decreases |ids|
  {
    if ids != [] {
      var next := Requeued(r, ids[0], g.now, g.schedulerId, g.idle);
      assert ids == [ids[0]] + ids[1..];
      RequeuesSeen(next, g, ids[1..], cronId);
      assert forall id <- ids[1..] :: next.store.ticks[id] == r.store.ticks[id];
    }
  }

  // ---- Due crons

  // The due crons of which no tick was taken over, in order.
  function Firing(cronIds: seq<string>, seen: set<string>): seq<string> {
    if cronIds == [] then []
    else (if cronIds[0] in seen then [] else [cronIds[0]]) + Firing(cronIds[1..], seen)
  }

  function FreshTick(s: Store, g: Settings, cronId: string): Tick
    requires cronId in s.crons
  {
    Tick(cronId, s.crons[cronId].nextRunAt, Started, g.now, None, g.schedulerId)
  }

  /** What firing leaves of a cron: it is to run next when its recurrence says, counted from now, and it stays on
      exactly when the recurrence answers a time that is not past its end. */
  ghost predicate HasFired(before: Cron, after: Cron, now: int, compute: Compute) {
    var next := compute(before.schedule, before.timezone, now);
    && after.schedule == before.schedule && after.timezone == before.timezone && after.endTime == before.endTime
    && after.nextRunAt == (if next.Some? then next.value else before.nextRunAt)
    && (after.enabled <==>
          before.enabled && next.Some? && (before.endTime.Some? ==> next.value <= before.endTime.value))
  }

  lemma {:induction false} InFiring(cronIds: seq<string>, seen: set<string>, cronId: string)
    ensures cronId in Firing(cronIds, seen) <==> cronId in cronIds && cronId !in seen
  {
    if cronIds != [] {
      InFiring(cronIds[1..], seen, cronId);
      assert cronIds == [cronIds[0]] + cronIds[1..];
    }
  }

  lemma {:induction false} FreshTicks(s: Store, r: Round, g: Settings, cronIds: seq<string>, compute: Compute)
    requires Distinct(cronIds)
    requires forall i | 0 <= i < |cronIds| :: cronIds[i] in r.store.crons
    requires forall i | 0 <= i < |cronIds| :: cronIds[i] in s.crons && s.crons[cronIds[i]] == r.store.crons[cronIds[i]]
    ensures
      var q := FreshAll(r, cronIds, g.now, g.schedulerId, compute);
      var firing := Firing(cronIds, r.seen);
      var n := |r.store.ticks|;
      && |q.store.ticks| == n + |firing| && q.store.ticks[..n] == r.store.ticks
      && |q.claimed| == |r.claimed| + |firing| && q.claimed[..|r.claimed|] == r.claimed
      && (forall k | 0 <= k < |firing| ::
            && firing[k] in s.crons && q.store.ticks[n + k] == FreshTick(s, g, firing[k])
            && q.claimed[|r.claimed| + k] == Claim(n + k, firing[k], s.crons[firing[k]].nextRunAt, None))
    decreases |cronIds|
  {
    if cronIds != [] {
      var next := Fresh(r, cronIds[0], g.now, g.schedulerId, compute);
      FreshTicks(s, next, g, cronIds[1..], compute);
      hide Fired;
    }
  }

  lemma {:induction false} FreshCrons(r: Round, g: Settings, cronIds: seq<string>, compute: Compute, cronId: string)
    requires Distinct(cronIds) && cronId in r.store.crons
    requires forall i | 0 <= i < |cronIds| :: cronIds[i] in r.store.crons
    ensures
      var q := FreshAll(r, cronIds, g.now, g.schedulerId, compute);
      && cronId in q.store.crons
      && if cronId in cronIds && cronId !in r.seen
         then HasFired(r.store.crons[cronId], q.store.crons[cronId], g.now, compute)
         else q.store.crons[cronId] == r.store.crons[cronId]
    decreases |cronIds|
  {
    if cronIds != [] {
      var next := Fresh(r, cronIds[0], g.now, g.schedulerId, compute);
      assert cronIds == [cronIds[0]] + cronIds[1..];
      assert cronIds[0] !in cronIds[1..];
      FreshCrons(next, g, cronIds[1..], compute, cronId);
      FiredIs(r.store.crons[cronIds[0]], g.now, compute);
      hide Fired, HasFired;
    }
  }

  lemma FiredIs(cron: Cron, now: int, compute: Compute)
    ensures HasFired(cron, Fired(cron, now, compute), now, compute)
  {}

  // ---- A whole round

  // Tick `id` is taken over in the round.
  predicate TakesOver(s: Store, g: Settings, p: Picks, id: nat) {
    && id < |s.ticks|
    && ((id in p.started && StartedTaken(s, g, s.ticks[id])) || (id in p.queued && QueuedTaken(s, g, s.ticks[id])))
  }

  ghost predicate CronTaken(s: Store, g: Settings, p: Picks, cronId: string) {
    exists id: nat :: TakesOver(s, g, p, id) && s.ticks[id].cronId == cronId
  }

  /** What the selects return: ticks that nobody has updated for long enough, started ones first, then queued
      ones with a run, and crons that are on, due and not past their end; at most `limit` in all. */
  lemma PicksAreStale(s: Store, g: Settings, p: Picks)
    requires ValidPicks(s, g, p)
    ensures forall id <- p.started :: id < |s.ticks| && s.ticks[id].status == Started && s.ticks[id].updatedAt <= g.now - g.staleAfter
    ensures forall id <- p.queued ::
      && id !in p.started && id < |s.ticks| && s.ticks[id].status == Queued && s.ticks[id].updatedAt <= g.now - g.staleAfter
      && s.ticks[id].runId.Some? && AfterStarted(s, g, p).store.ticks[id] == s.ticks[id]
    ensures forall c <- p.due ::
      && c in s.crons && s.crons[c].enabled && s.crons[c].nextRunAt <= g.now
      && (s.crons[c].endTime.Some? ==> g.now < s.crons[c].endTime.value)
  {
    var start := Round(s, [], {});
    assert InRange(p.started, s);
    forall id <- p.queued
      ensures id !in p.started && AfterStarted(s, g, p).store.ticks[id] == s.ticks[id]
    {
      ReclaimsTicks(start, g, p.started, id);
    }
    hide ReclaimAll, RequeueAll, StartedTaken;
  }

  lemma RoundTicks(s: Store, g: Settings, p: Picks, t: nat)
    requires ValidPicks(s, g, p) && t < |s.ticks|
    ensures AfterQueued(s, g, p).store.ticks[t] ==
            if t in p.started then StartedAfter(s, g, s.ticks[t])
            else if t in p.queued then QueuedAfter(s, g, s.ticks[t])
            else s.ticks[t]
  {
    PicksAreStale(s, g, p);
    var a := AfterStarted(s, g, p);
    ReclaimsTicks(Round(s, [], {}), g, p.started, t);
    RequeuesTicks(a, g, p.queued, t);
    hide ReclaimAll, RequeueAll, StartedAfter;
  }

  lemma RoundClaims(s: Store, g: Settings, p: Picks, c: Claim)
    requires ValidPicks(s, g, p)
    ensures c in AfterQueued(s, g, p).claimed <==> TakesOver(s, g, p, c.tickId) && c == ClaimOf(s, c.tickId)
  {
    PicksAreStale(s, g, p);
    var a := AfterStarted(s, g, p);
    ReclaimsClaims(Round(s, [], {}), g, p.started, c);
    RequeuesClaims(a, g, p.queued, c);
    hide ReclaimAll, RequeueAll, StartedTaken;
  }

  lemma RoundSeen(s: Store, g: Settings, p: Picks, cronId: string)
    requires ValidPicks(s, g, p)
    ensures cronId in AfterQueued(s, g, p).seen <==> CronTaken(s, g, p, cronId)
  {
    PicksAreStale(s, g, p);
    var a := AfterStarted(s, g, p);
    ReclaimsSeen(Round(s, [], {}), g, p.started, cronId);
    RequeuesSeen(a, g, p.queued, cronId);
    hide ReclaimAll, RequeueAll, StartedTaken, QueuedTaken;
    if exists id <- p.started :: StartedTaken(s, g, s.ticks[id]) && s.ticks[id].cronId == cronId {
      var id :| id in p.started && StartedTaken(s, g, s.ticks[id]) && s.ticks[id].cronId == cronId;
      assert TakesOver(s, g, p, id);
    }
    if exists id <- p.queued :: QueuedTaken(a.store, g, a.store.ticks[id]) && a.store.ticks[id].cronId == cronId {
      var id :| id in p.queued && QueuedTaken(a.store, g, a.store.ticks[id]) && a.store.ticks[id].cronId == cronId;
      QueuedTakenSame(a.store, s, g, s.ticks[id]);
      assert TakesOver(s, g, p, id);
    }
    if CronTaken(s, g, p, cronId) {
      var id: nat :| TakesOver(s, g, p, id) && s.ticks[id].cronId == cronId;
      QueuedTakenSame(a.store, s, g, s.ticks[id]);
    }
  }

  lemma QueuedTakenSame(a: Store, s: Store, g: Settings, t: Tick)
    requires a.crons == s.crons
    ensures QueuedTaken(a, g, t) <==> QueuedTaken(s, g, t)
  {}

  // The crons a round fires, in order.
  function FiredCrons(s: Store, g: Settings, p: Picks): seq<string>
    requires ValidPicks(s, g, p)
  {
    Firing(p.due, AfterQueued(s, g, p).seen)
  }

  /** A round fires each due cron of which it has taken over no tick, once, and no other. */
  lemma FiresExactly(s: Store, g: Settings, p: Picks)
    requires ValidPicks(s, g, p)
    ensures Distinct(FiredCrons(s, g, p))
    ensures forall c :: c in FiredCrons(s, g, p) <==> c in p.due && !CronTaken(s, g, p, c)
  {
    var seen := AfterQueued(s, g, p).seen;
    forall c ensures c in FiredCrons(s, g, p) <==> c in p.due && !CronTaken(s, g, p, c) {
      RoundSeen(s, g, p, c);
      InFiring(p.due, seen, c);
    }
    FiringDistinct(p.due, seen);
  }

  lemma {:induction false} FiringDistinct(cronIds: seq<string>, seen: set<string>)
    requires Distinct(cronIds)
    ensures Distinct(Firing(cronIds, seen))
  {
    if cronIds != [] {
      FiringDistinct(cronIds[1..], seen);
      InFiring(cronIds[1..], seen, cronIds[0]);
      assert cronIds[0] !in cronIds[1..];
    }
  }

  lemma FreshRound(s: Store, g: Settings, p: Picks, compute: Compute)
    requires ValidPicks(s, g, p)
    ensures
      var b, q, firing, n := AfterQueued(s, g, p), ClaimDue(s, g, p, compute), FiredCrons(s, g, p), |s.ticks|;
      && |b.store.ticks| == n && |q.store.ticks| == n + |firing| && q.store.ticks[..n] == b.store.ticks
      && |q.claimed| == |b.claimed| + |firing| && q.claimed[..|b.claimed|] == b.claimed
      && (forall k | 0 <= k < |firing| ::
            && firing[k] in s.crons && q.store.ticks[n + k] == FreshTick(s, g, firing[k])
            && q.claimed[|b.claimed| + k] == Claim(n + k, firing[k], s.crons[firing[k]].nextRunAt, None))
  {
    PicksAreStale(s, g, p);
    hide Firing, FreshAll, ReclaimAll, RequeueAll;
    FreshTicks(s, AfterQueued(s, g, p), g, p.due, compute);
  }

  /** What a round makes of the ticks. Each picked one is taken over, skipped or left as its cron and its run say,
      no other old one changes, and each cron that fires gets a new one for the time it was due. */
  lemma TicksAfterRound(s: Store, g: Settings, p: Picks, compute: Compute)
    requires ValidPicks(s, g, p)
    ensures
      var ticks, firing := ClaimDue(s, g, p, compute).store.ticks, FiredCrons(s, g, p);
      && |ticks| == |s.ticks| + |firing|
      && (forall t: nat | t < |s.ticks| :: ticks[t] ==
            if t in p.started then StartedAfter(s, g, s.ticks[t])
            else if t in p.queued then QueuedAfter(s, g, s.ticks[t])
            else s.ticks[t])
      && (forall t: nat | |s.ticks| <= t < |ticks| ::
            firing[t - |s.ticks|] in s.crons && ticks[t] == FreshTick(s, g, firing[t - |s.ticks|]))
  {
    FreshRound(s, g, p, compute);
    var ticks, firing := ClaimDue(s, g, p, compute).store.ticks, FiredCrons(s, g, p);
    forall t: nat | t < |s.ticks| ensures ticks[t] ==
            if t in p.started then StartedAfter(s, g, s.ticks[t])
            else if t in p.queued then QueuedAfter(s, g, s.ticks[t])
            else s.ticks[t]
    {
      RoundTicks(s, g, p, t);
      assert ticks[t] == ticks[..|s.ticks|][t];
    }
    hide ClaimDue, FiredCrons, StartedAfter, QueuedAfter, AfterQueued, FreshTick;
    forall t: nat | |s.ticks| <= t < |ticks| ensures firing[t - |s.ticks|] in s.crons && ticks[t] == FreshTick(s, g, firing[t - |s.ticks|]) {
      var k := t - |s.ticks|;
      assert firing[k] in s.crons && ticks[|s.ticks| + k] == FreshTick(s, g, firing[k]);
    }
  }

  /** A round claims the ticks it took over, as they were, and the ticks it made. */
  lemma ClaimsAfterRound(s: Store, g: Settings, p: Picks, compute: Compute, c: Claim)
    requires ValidPicks(s, g, p)
    ensures
      var q := ClaimDue(s, g, p, compute);
      c in q.claimed <==>
        || (TakesOver(s, g, p, c.tickId) && c == ClaimOf(s, c.tickId))
        || (|s.ticks| <= c.tickId < |q.store.ticks| && c == ClaimOf(q.store, c.tickId))
  {
    RoundClaims(s, g, p, c);
    FreshRound(s, g, p, compute);
    var b, q, firing, n := AfterQueued(s, g, p), ClaimDue(s, g, p, compute), FiredCrons(s, g, p), |s.ticks|;
    hide ClaimDue, FiredCrons, AfterQueued, TakesOver, ValidPicks;
    assert q.claimed == b.claimed + q.claimed[|b.claimed|..];
    assert forall i | 0 <= i < |b.claimed| :: q.claimed[i] in b.claimed;
    if n <= c.tickId < |q.store.ticks| && c == ClaimOf(q.store, c.tickId) {
      var k := c.tickId - n;
      assert firing[k] in s.crons && q.store.ticks[n + k] == FreshTick(s, g, firing[k]);
      assert q.claimed[|b.claimed| + k] == c;
    }
    if c in q.claimed && c !in b.claimed {
      var j :| 0 <= j < |q.claimed| && q.claimed[j] == c;
      var k := j - |b.claimed|;
      assert firing[k] in s.crons && q.store.ticks[n + k] == FreshTick(s, g, firing[k]);
      assert q.claimed[|b.claimed| + k] == Claim(n + k, firing[k], s.crons[firing[k]].nextRunAt, None);
    }
  }

  /** What a round makes of a cron: it has fired if the round fires it, and is as before otherwise. */
  lemma CronsAfterRound(s: Store, g: Settings, p: Picks, compute: Compute, cronId: string)
    requires ValidPicks(s, g, p) && cronId in s.crons
    ensures
      var crons := ClaimDue(s, g, p, compute).store.crons;
      && cronId in crons
      && if cronId in p.due && !CronTaken(s, g, p, cronId)
         then HasFired(s.crons[cronId], crons[cronId], g.now, compute)
         else crons[cronId] == s.crons[cronId]
  {
    RoundSeen(s, g, p, cronId);
    hide FreshAll, CronTaken, HasFired;
    FreshCrons(AfterQueued(s, g, p), g, p.due, compute, cronId);
  }
}
