/** No occurrence fires twice: proofs about `CronScheduler`. */
module CronClaims {
  import opened Wrappers
  import opened CronScheduler

  // ---- The invariant

  // The ticks of one cron are for later and later times.
  ghost predicate Increasing(s: Store) {
    forall i, j | 0 <= i < j < |s.ticks| && s.ticks[i].cronId == s.ticks[j].cronId ::
      s.ticks[i].scheduledFor < s.ticks[j].scheduledFor
  }

  // An enabled cron will next fire later than it ever has.
  ghost predicate Ahead(s: Store) {
    forall i | 0 <= i < |s.ticks| && s.ticks[i].cronId in s.crons && s.crons[s.ticks[i].cronId].enabled ::
      s.ticks[i].scheduledFor < s.crons[s.ticks[i].cronId].nextRunAt
  }

  ghost predicate Inv(s: Store) { Increasing(s) && Ahead(s) }

  // Only status, time stamp, scheduler and run of existing ticks differ.
  ghost predicate SameOccurrences(a: seq<Tick>, b: seq<Tick>) {
    |a| <= |b| && forall i | 0 <= i < |a| :: a[i].cronId == b[i].cronId && a[i].scheduledFor == b[i].scheduledFor
  }

  lemma SameOccurrencesKeepInv(a: Store, b: Store)
    requires Inv(a) && a.crons == b.crons && |a.ticks| == |b.ticks| && SameOccurrences(a.ticks, b.ticks)
    ensures Inv(b)
  {}

  // ---- The first two loops

  // The claims made so far name distinct ticks, as they stand in the store.
  ghost predicate Accounted(r: Round) {
    && (forall i | 0 <= i < |r.claimed| ::
          r.claimed[i].tickId < |r.store.ticks|
          && r.claimed[i].cronId == r.store.ticks[r.claimed[i].tickId].cronId
          && r.claimed[i].scheduledFor == r.store.ticks[r.claimed[i].tickId].scheduledFor)
    && (forall i, j | 0 <= i < j < |r.claimed| :: r.claimed[i].tickId != r.claimed[j].tickId)
  }

  ghost predicate NotClaimed(r: Round, ids: seq<nat>) {
    forall i, k | 0 <= i < |r.claimed| && 0 <= k < |ids| :: r.claimed[i].tickId != ids[k]
  }

  // Old ticks keep their occurrence, and the claims of old ticks were stale ones of the given status.
  lemma TakenOverKeeps(r: Round, id: nat, now: int, schedulerId: string)
    requires Accounted(r) && id < |r.store.ticks| && NotClaimed(r, [id])
    ensures
      var q := TakenOver(r, id, now, schedulerId);
      Accounted(q) && SameOccurrences(r.store.ticks, q.store.ticks)
  {
    var q := TakenOver(r, id, now, schedulerId);
    assert [id][0] == id;
    assert forall i | 0 <= i < |r.claimed| :: q.claimed[i] == r.claimed[i];
  }

  lemma {:induction false} ReclaimKeeps(r: Round, ids: seq<nat>, now: int, schedulerId: string)
    requires Accounted(r) && Distinct(ids) && NotClaimed(r, ids)
    requires forall i | 0 <= i < |ids| :: ids[i] < |r.store.ticks|
    ensures
      var q := ReclaimAll(r, ids, now, schedulerId);
      && Accounted(q) && SameOccurrences(r.store.ticks, q.store.ticks)
      && |q.claimed| <= |r.claimed| + |ids|
    decreases |ids|
  {
    if ids != [] {
      var id, next := ids[0], Reclaimed(r, ids[0], now, schedulerId);
      if next == TakenOver(r, id, now, schedulerId) { TakenOverKeeps(r, id, now, schedulerId); }
      assert NotClaimed(next, ids[1..]) && Distinct(ids[1..]);
      ReclaimKeeps(next, ids[1..], now, schedulerId);
    }
  }

  ghost predicate AllStarted(r: Round, ids: seq<nat>) {
    && (forall i | 0 <= i < |r.claimed| ::
          r.claimed[i].tickId < |r.store.ticks| && r.store.ticks[r.claimed[i].tickId].status.Started?)
    && (forall i | 0 <= i < |ids| :: ids[i] < |r.store.ticks| && r.store.ticks[ids[i]].status.Started?)
  }

  // What the first loop claims is still 'started', so no later select of 'queued' ticks returns it.
  lemma {:induction false} ReclaimedAreStarted(r: Round, ids: seq<nat>, now: int, schedulerId: string)
    requires AllStarted(r, ids) && Distinct(ids) && NotClaimed(r, ids)
    ensures AllStarted(ReclaimAll(r, ids, now, schedulerId), [])
    decreases |ids|
  {
    if ids != [] {
      var next := Reclaimed(r, ids[0], now, schedulerId);
      ReclaimedOne(r, ids, now, schedulerId);
      ReclaimedAreStarted(next, ids[1..], now, schedulerId);
    }
  }

  lemma ReclaimedOne(r: Round, ids: seq<nat>, now: int, schedulerId: string)
    requires ids != [] && AllStarted(r, ids) && Distinct(ids) && NotClaimed(r, ids)
    ensures
      var next := Reclaimed(r, ids[0], now, schedulerId);
      AllStarted(next, ids[1..]) && Distinct(ids[1..]) && NotClaimed(next, ids[1..])
  {
    var next := Reclaimed(r, ids[0], now, schedulerId);
    assert forall i | 0 <= i < |r.claimed| :: next.claimed[i] == r.claimed[i];
  }

  lemma {:induction false} RequeueKeeps(r: Round, ids: seq<nat>, now: int, schedulerId: string, idle: set<string>)
    requires Accounted(r) && Distinct(ids) && NotClaimed(r, ids)
    requires forall i | 0 <= i < |ids| :: ids[i] < |r.store.ticks|
    ensures
      var q := RequeueAll(r, ids, now, schedulerId, idle);
      && Accounted(q) && SameOccurrences(r.store.ticks, q.store.ticks)
      && |q.claimed| <= |r.claimed| + |ids|
    decreases |ids|
  {
    if ids != [] {
      var id, next := ids[0], Requeued(r, ids[0], now, schedulerId, idle);
      if next == TakenOver(r, id, now, schedulerId) { TakenOverKeeps(r, id, now, schedulerId); }
      assert NotClaimed(next, ids[1..]) && Distinct(ids[1..]);
      RequeueKeeps(next, ids[1..], now, schedulerId, idle);
    }
  }

  // ---- The third loop

  lemma FreshOne(r: Round, cronId: string, now: int, schedulerId: string, compute: Compute)
    requires Accounted(r) && Inv(r.store) && Due(r.store, cronId, now) && Advances(compute)
    ensures
      var q := Fresh(r, cronId, now, schedulerId, compute);
      Accounted(q) && Inv(q.store) && SameOccurrences(r.store.ticks, q.store.ticks)
  {
    var q := Fresh(r, cronId, now, schedulerId, compute);
    if cronId !in r.seen {
      var n, cron := |r.store.ticks|, r.store.crons[cronId];
      assert forall i | 0 <= i < n :: q.store.ticks[i] == r.store.ticks[i];
      assert forall i | 0 <= i < |r.claimed| :: q.claimed[i] == r.claimed[i];
      assert forall i | 0 <= i < n && r.store.ticks[i].cronId == cronId :: r.store.ticks[i].scheduledFor < cron.nextRunAt;
      var fired := q.store.crons[cronId];
      assert fired.enabled ==> fired.nextRunAt > now >= cron.nextRunAt;
      hide Accounted, Fired;
    }
  }

  // Each tick made from `from` on is one that a cron due in `s` fires now, and that cron was not seen.
  ghost predicate FiredRightly(s: Store, seen: set<string>, now: int, ticks: seq<Tick>, from: nat) {
    forall i | from <= i < |ticks| ::
      && Due(s, ticks[i].cronId, now) && ticks[i].cronId !in seen
      && ticks[i].scheduledFor == s.crons[ticks[i].cronId].nextRunAt
  }

  lemma {:induction false} FreshKeeps(
    s: Store, r: Round, cronIds: seq<string>, now: int, schedulerId: string, compute: Compute, from: nat)
    requires Accounted(r) && Inv(r.store) && Advances(compute) && Distinct(cronIds) && from <= |r.store.ticks|
    requires forall i | 0 <= i < |cronIds| :: Due(s, cronIds[i], now)
    requires forall i | 0 <= i < |cronIds| :: cronIds[i] in r.store.crons && cronIds[i] in s.crons
    requires forall i | 0 <= i < |cronIds| :: r.store.crons[cronIds[i]] == s.crons[cronIds[i]]
    requires FiredRightly(s, r.seen, now, r.store.ticks, from)
    ensures
      var q := FreshAll(r, cronIds, now, schedulerId, compute);
      && Accounted(q) && Inv(q.store) && SameOccurrences(r.store.ticks, q.store.ticks)
      && |q.claimed| <= |r.claimed| + |cronIds|
      && FiredRightly(s, r.seen, now, q.store.ticks, from)
    decreases |cronIds|
  {
    hide Accounted, Inv, Advances;
    if cronIds != [] {
      var next := Fresh(r, cronIds[0], now, schedulerId, compute);
      FreshOne(r, cronIds[0], now, schedulerId, compute);
      FreshKeeps(s, next, cronIds[1..], now, schedulerId, compute, from);
    }
  }

  // ---- One round

  /** A round claims at most `limit`, never one tick twice; the ticks it makes are for crons that are
      enabled, due and not past their end, at the time they were due, and later than every earlier
      tick of the same cron. */
  lemma RoundIsRight(s: Store, g: Settings, p: Picks, compute: Compute)
    requires Inv(s) && ValidPicks(s, g, p) && Advances(compute)
    ensures
      var q := ClaimDue(s, g, p, compute);
      && Inv(q.store) && Accounted(q) && SameOccurrences(s.ticks, q.store.ticks)
      && |q.claimed| <= g.limit
      && FiredRightly(s, AfterQueued(s, g, p).seen, g.now, q.store.ticks, |s.ticks|)
  {
    var start := Round(s, [], {});
    ReclaimKeeps(start, p.started, g.now, g.schedulerId);
    ReclaimedAreStarted(start, p.started, g.now, g.schedulerId);
    var a := AfterStarted(s, g, p);
    assert NotClaimed(a, p.queued);
    RequeueKeeps(a, p.queued, g.now, g.schedulerId, g.idle);
    var b := AfterQueued(s, g, p);
    SameOccurrencesKeepInv(s, b.store);
    hide Accounted, Inv, Advances, SameOccurrences, AllStarted;
    FreshKeeps(b.store, b, p.due, g.now, g.schedulerId, compute, |s.ticks|);
  }

  // ---- Runs

  // A patch computes the next run anew for a new schedule, for a cron switched on again, and for a new
  // time zone of one that is on.
  predicate Recomputes(cron: Cron, p: Patch) {
    p.schedule.Some? || (p.enabled == Some(true) && !cron.enabled) || (p.timezone.Some? && EnabledAfter(cron, p))
  }

  predicate EnabledAfter(cron: Cron, p: Patch) { if p.enabled.Some? then p.enabled.value else cron.enabled }

  /** A patch that leaves the cron on with a next run computed anew is made by a clock that is not behind
      an occurrence already fired. */
  ghost predicate Current(s: Store, e: Event)
    requires Possible(s, e)
  {
    e.PatchedBy? && Recomputes(s.crons[e.cronId], e.patch) && EnabledAfter(s.crons[e.cronId], e.patch) ==>
      forall i | 0 <= i < |s.ticks| && s.ticks[i].cronId == e.cronId :: s.ticks[i].scheduledFor <= e.patch.now
  }

  // What an accepted patch does to what the scheduler relies on.
  lemma PatchedNext(cron: Cron, p: Patch, compute: Compute)
    requires Advances(compute) && Patched(cron, p, compute).Some?
    ensures
      var q := Patched(cron, p, compute).value;
      && q.enabled == EnabledAfter(cron, p)
      && (if Recomputes(cron, p) then q.nextRunAt > p.now else q.nextRunAt == cron.nextRunAt)
      && (q.enabled && !Recomputes(cron, p) ==> cron.enabled)
  {}

  lemma PatchKeeps(s: Store, cronId: string, p: Patch, compute: Compute)
    requires Inv(s) && cronId in s.crons && Current(s, PatchedBy(cronId, p)) && Advances(compute)
    ensures Inv(Step(s, PatchedBy(cronId, p), compute))
  {
    if Patched(s.crons[cronId], p, compute).Some? { PatchedNext(s.crons[cronId], p, compute); }
    hide Patched;
  }

  // The recurrence that is next due at `at`, and after that one step after any time.
  function DueAt(at: int): Compute { (s, z, t) => Some(if t < at then at else t + 1) }

  lemma BehindPatched(cron: Cron, p: Patch, at: int)
    requires Recomputes(cron, p) && EnabledAfter(cron, p) && p.now < at
    ensures
      var q := Patched(cron, p, DueAt(at));
      q.Some? && q.value.enabled && q.value.nextRunAt == at
  {}

  /** A patch keeps every cron ahead of what it has fired, whatever the recurrence, exactly when it is
      current. */
  lemma PatchKeepsExactly(s: Store, cronId: string, p: Patch)
    requires Inv(s) && cronId in s.crons
    ensures (forall compute | Advances(compute) :: Inv(Step(s, PatchedBy(cronId, p), compute)))
        <==> Current(s, PatchedBy(cronId, p))
  {
    if Current(s, PatchedBy(cronId, p)) {
      forall compute | Advances(compute) ensures Inv(Step(s, PatchedBy(cronId, p), compute)) {
        PatchKeeps(s, cronId, p, compute);
      }
    } else {
      var i :| 0 <= i < |s.ticks| && s.ticks[i].cronId == cronId && s.ticks[i].scheduledFor > p.now;
      var at := s.ticks[i].scheduledFor;
      BehindPatched(s.crons[cronId], p, at);
      hide Patched;
      var t := Step(s, PatchedBy(cronId, p), DueAt(at));
      assert Advances(DueAt(at));
      assert t.ticks[i].scheduledFor >= t.crons[cronId].nextRunAt;
      assert !Ahead(t);
    }
  }

  lemma StepKeeps(s: Store, e: Event, compute: Compute)
    requires Inv(s) && Possible(s, e) && Current(s, e) && Advances(compute)
    ensures Inv(Step(s, e, compute)) && SameOccurrences(s.ticks, Step(s, e, compute).ticks)
  {
    match e
    case ClaimRound(settings, picks) =>
      RoundIsRight(s, settings, picks, compute);
      hide Inv, SameOccurrences, ClaimDue, ValidPicks;
    case PatchedBy(cronId, patch) =>
      PatchKeeps(s, cronId, patch, compute);
      hide Patched, Current;
    case _ =>
      hide ClaimDue, Patched, ValidPicks;
  }

  function After(s: Store, run: seq<Event>, compute: Compute): Store
    requires AllPossible(s, run, compute)
    decreases |run|
  {
    if run == [] then s else After(Step(s, run[0], compute), run[1..], compute)
  }

  ghost predicate AllPossible(s: Store, run: seq<Event>, compute: Compute)
    decreases |run|
  {
    run == [] || (Possible(s, run[0]) && AllPossible(Step(s, run[0], compute), run[1..], compute))
  }

  ghost predicate AllCurrent(s: Store, run: seq<Event>, compute: Compute)
    requires AllPossible(s, run, compute)
    decreases |run|
  {
    run == [] || (Current(s, run[0]) && AllCurrent(Step(s, run[0], compute), run[1..], compute))
  }

  /** Over any sequence of rounds, with any clock readings, and of the other changes, patches that are
      current among them, the ticks of one cron are for strictly later and later times: no occurrence is
      fired twice. */
  lemma {:induction false} NoOccurrenceFiresTwice(s: Store, run: seq<Event>, compute: Compute)
    requires Inv(s) && Advances(compute) && AllPossible(s, run, compute) && AllCurrent(s, run, compute)
    ensures Inv(After(s, run, compute)) && SameOccurrences(s.ticks, After(s, run, compute).ticks)
    decreases |run|
  {
    if run != [] {
      StepKeeps(s, run[0], compute);
      NoOccurrenceFiresTwice(Step(s, run[0], compute), run[1..], compute);
      var last := After(s, run, compute).ticks;
      var next := Step(s, run[0], compute).ticks;
      assert forall i | 0 <= i < |s.ticks| :: s.ticks[i].cronId == next[i].cronId == last[i].cronId;
      hide Inv, Step, Current, Possible, Advances;
    }
  }

  // A patch that takes the end time away, and a round at `at` that claims one cron.
  function NoEnd(now: int): Patch { Patch(None, None, None, Some(None), now) }

  function OneRound(cronId: string, at: int): Event {
    ClaimRound(Settings(1, at, 1, "me", {}), Picks([], [], [cronId]))
  }

  function BehindRun(cronId: string, p: Patch, at: int): seq<Event> {
    [PatchedBy(cronId, p), PatchedBy(cronId, NoEnd(p.now)), OneRound(cronId, at)]
  }

  // The cron is due at `at` and without an end, once the first patch and the second have been applied.
  lemma BehindDue(s: Store, cronId: string, p: Patch, at: int)
    requires cronId in s.crons && Recomputes(s.crons[cronId], p) && EnabledAfter(s.crons[cronId], p) && p.now < at
    ensures
      var s1 := Step(s, PatchedBy(cronId, p), DueAt(at));
      && Possible(s1, PatchedBy(cronId, NoEnd(p.now))) && Current(s1, PatchedBy(cronId, NoEnd(p.now)))
      && var s2 := Step(s1, PatchedBy(cronId, NoEnd(p.now)), DueAt(at));
         s2.ticks == s.ticks && Due(s2, cronId, at) && s2.crons[cronId].nextRunAt == at
  {
    BehindPatched(s.crons[cronId], p, at);
  }

  lemma RoundFires(s: Store, cronId: string, at: int, compute: Compute)
    requires Due(s, cronId, at) && s.crons[cronId].nextRunAt == at
    ensures Possible(s, OneRound(cronId, at))
    ensures
      var last := Step(s, OneRound(cronId, at), compute);
      && |last.ticks| == |s.ticks| + 1 && SameOccurrences(s.ticks, last.ticks)
      && last.ticks[|s.ticks|].cronId == cronId && last.ticks[|s.ticks|].scheduledFor == at
  {
    OneClaim(s, OneRound(cronId, at).settings, cronId, compute);
    hide ClaimDue, ValidPicks;
  }

  lemma AfterThree(s: Store, run: seq<Event>, compute: Compute)
    requires |run| == 3 && Possible(s, run[0])
    requires var s1 := Step(s, run[0], compute);
      && Possible(s1, run[1]) && Current(s1, run[1])
      && var s2 := Step(s1, run[1], compute); Possible(s2, run[2]) && Current(s2, run[2])
    ensures AllPossible(s, run, compute) && AllCurrent(Step(s, run[0], compute), run[1..], compute)
    ensures After(s, run, compute) == Step(Step(Step(s, run[0], compute), run[1], compute), run[2], compute)
  {
    var s1 := Step(s, run[0], compute);
    var s2 := Step(s1, run[1], compute);
    var s3 := Step(s2, run[2], compute);
    hide Possible, Current, Step;
    assert run[1..][1..][1..] == [] && run[1..][0] == run[1] && run[1..][1..][0] == run[2];
    assert AllPossible(s3, [], compute) && AllCurrent(s3, [], compute) && After(s3, [], compute) == s3;
    assert AllPossible(s2, run[1..][1..], compute) && After(s2, run[1..][1..], compute) == s3;
    assert AllPossible(s1, run[1..], compute);
  }

  /** One patch that is not current is enough for an occurrence that has fired to fire again, even if
      nothing that follows is out of date. */
  lemma BehindRefires(s: Store, cronId: string, p: Patch, i: nat)
    requires cronId in s.crons && Recomputes(s.crons[cronId], p) && EnabledAfter(s.crons[cronId], p)
    requires i < |s.ticks| && s.ticks[i].cronId == cronId && p.now < s.ticks[i].scheduledFor
    ensures
      var at := s.ticks[i].scheduledFor;
      var run := BehindRun(cronId, p, at);
      && Advances(DueAt(at)) && AllPossible(s, run, DueAt(at))
      && AllCurrent(Step(s, run[0], DueAt(at)), run[1..], DueAt(at))
      && var last := After(s, run, DueAt(at));
         && |last.ticks| == |s.ticks| + 1 && SameOccurrences(s.ticks, last.ticks)
         && last.ticks[|s.ticks|].cronId == cronId && last.ticks[|s.ticks|].scheduledFor == at
  {
    var at := s.ticks[i].scheduledFor;
    var run := BehindRun(cronId, p, at);
    BehindDue(s, cronId, p, at);
    RoundFires(Step(Step(s, run[0], DueAt(at)), run[1], DueAt(at)), cronId, at, DueAt(at));
    hide Patched, ClaimDue, Step;
    AfterThree(s, run, DueAt(at));
  }

  /** With a clock behind, a patch can bring back an occurrence that has fired: a cron fires for time 10,
      is patched by a clock showing 9, and is due again for time 10. */
  lemma ClockBehindRefires()
    ensures
      var compute: Compute := (s, z, t) => Some(t + 1);
      var cron := Cron("s", "UTC", true, 10, None);
      var g, p := Settings(1, 10, 1, "me", {}), Picks([], [], ["c"]);
      var s := Store(map["c" := cron], []);
      var patch := PatchedBy("c", Patch(Some("s"), None, None, None, 9));
      && ValidPicks(s, g, p)
      && var once := ClaimDue(s, g, p, compute).store;
         && Possible(once, patch) && !Current(once, patch)
         && var patched := Step(once, patch, compute);
            && ValidPicks(patched, g, p)
            && var twice := ClaimDue(patched, g, p, compute).store;
               && |twice.ticks| == 2
               && twice.ticks[0].scheduledFor == twice.ticks[1].scheduledFor == 10
               && twice.ticks[0].cronId == twice.ticks[1].cronId
  {
    var compute: Compute := (s, z, t) => Some(t + 1);
    var g, p := Settings(1, 10, 1, "me", {}), Picks([], [], ["c"]);
    var s := Store(map["c" := Cron("s", "UTC", true, 10, None)], []);
    OneClaim(s, g, "c", compute);
    var once := ClaimDue(s, g, p, compute).store;
    var patch := PatchedBy("c", Patch(Some("s"), None, None, None, 9));
    assert once.crons["c"].enabled && once.ticks[0].scheduledFor == 10;
    var patched := Step(once, patch, compute);
    assert patched.crons["c"].nextRunAt == 10 && patched.crons["c"].enabled && patched.crons["c"].endTime == None;
    OneClaim(patched, g, "c", compute);
  }

  lemma OneClaim(s: Store, g: Settings, c: string, compute: Compute)
    requires Due(s, c, g.now) && g.limit == 1
    ensures
      var p := Picks([], [], [c]);
      ValidPicks(s, g, p) && ClaimDue(s, g, p, compute) == Fresh(Round(s, [], {}), c, g.now, g.schedulerId, compute)
  {
    var p := Picks([], [], [c]);
    var b := Round(s, [], {});
    assert PicksStarted(s, g, []) && AfterStarted(s, g, p) == b;
    assert PicksQueued(s, g, [], 0) && AfterQueued(s, g, p) == b;
    assert PicksDue(s, g, [c], 0);
    var q := Fresh(b, c, g.now, g.schedulerId, compute);
    assert [c][1..] == [];
    assert FreshAll(q, [], g.now, g.schedulerId, compute) == q;
  }
}
