/**
  The Windows launcher and child. Every native call may fail, at every call site, independently; a
  failing call has no effect beyond the attempt being recorded. Handles are numbered in order of
  issue, so the handles one call obtained are those from the old `issued` up to the new one.
*/
module WindowsLauncher {
  import opened Wrappers

  // Standard input, output and error.
  const STREAMS: seq<int> := [-10, -11, -12]

  // What a handle was made for. A process knows its three streams, the attribute list it was created
  // with, and whether the job of that list already killed its processes on close.
  datatype Made =
    | NullHandle(stream: int)
    | Copy(source: nat)
    | Job
    | Process(streams: seq<nat>, list: nat, guarded: bool)
    | Thread(process: nat)

  datatype Attributes = Attributes(handles: seq<nat>, job: nat)

  /** The operating system behind both native protocols. `standard` are the standard handles this process
      has. `closeCalls` counts the attempts to close a handle, `refused` holds the handles some attempt
      failed to close, and `failures` counts the calls that failed. */
  class Kernel {
    var standard: map<int, nat>
    var made: map<nat, Made>
    var lists: map<nat, Attributes>
    var killOnClose: set<nat>
    var resumed: set<nat>
    var failures: nat
    var issued: nat
    var open: set<nat>
    var closeCalls: multiset<nat>
    var refused: set<nat>
    var listsMade: nat
    var listDeletions: multiset<nat>
    var processes: set<nat>
    var terminated: set<nat>
    var awaited: set<nat>
    var jobsTerminated: set<nat>
    var jobsAwaited: set<nat>

    ghost predicate Valid()
      reads this
    {
      && (forall h <- open :: h < issued)
      && (forall h <- closeCalls :: h < issued)
      && (forall l <- listDeletions :: l < listsMade)
      && (forall p <- processes :: p < issued)
      && (forall s <- standard :: standard[s] < issued)
      && (forall h <- made :: h < issued) && (forall l <- lists :: l < listsMade)
    }

    /** CloseHandle. Asking for `h in open` makes every caller prove that it never closes a handle
        that a close has already released. */
    method CloseHandle(h: nat) returns (ok: bool)
      requires Valid() && h in open
      modifies this`open, this`closeCalls, this`refused, this`failures
      ensures Valid() && failures == old(failures) + (if ok then 0 else 1)
      ensures closeCalls == old(closeCalls) + multiset{h}
      ensures open == if ok then old(open) - {h} else old(open)
      ensures refused == if ok then old(refused) else old(refused) + {h}
    {
      ok := *;
      closeCalls := closeCalls + multiset{h};
      if ok { open := open - {h}; } else { refused, failures := refused + {h}, failures + 1; }
    }

    /** Any call that hands out one handle: open_null_handle, duplicate_inheritable_handle, create_job. */
    method Issue(m: Made) returns (r: Option<nat>)
      requires Valid()
      modifies this`issued, this`open, this`made, this`failures
      ensures Valid() && failures == old(failures) + (if r.Some? then 0 else 1)
      ensures r.None? ==> issued == old(issued) && open == old(open) && made == old(made)
      ensures r.Some? ==> r.value == old(issued) && issued == old(issued) + 1 && open == old(open) + {r.value}
      ensures r.Some? ==> made == old(made)[r.value := m]
    {
      r := None;
      if * {
        r := Some(issued);
        made := made[issued := m];
        open, issued := open + {issued}, issued + 1;
      } else {
        failures := failures + 1;
      }
    }

    /** get_standard_handle: an error, no handle, or one that already belongs to this process. */
    method StandardHandle(stream: int) returns (r: Result<Option<nat>, ()>)
      requires Valid()
      modifies this`failures
      ensures Valid() && failures == old(failures) + (if r.Ok? then 0 else 1)
      ensures r.Ok? ==> r.value == if stream in standard then Some(standard[stream]) else None
    {
      r := Ok(if stream in standard then Some(standard[stream]) else None);
      if * { r, failures := Err(()), failures + 1; }
    }

    method CreateAttributeList(handles: seq<nat>, job: nat) returns (r: Option<nat>)
      requires Valid()
      modifies this`listsMade, this`lists, this`failures
      ensures Valid() && failures == old(failures) + (if r.Some? then 0 else 1)
      ensures r.None? ==> listsMade == old(listsMade)
      ensures r.Some? ==> r.value == old(listsMade) && listsMade == old(listsMade) + 1
      ensures r.Some? ==> lists == old(lists)[r.value := Attributes(handles, job)]
    {
      r := None;
      if * {
        r := Some(listsMade);
        lists := lists[listsMade := Attributes(handles, job)];
        listsMade := listsMade + 1;
      } else {
        failures := failures + 1;
      }
    }

    method DeleteAttributeList(list: nat) returns (ok: bool)
      requires Valid() && list < listsMade
      modifies this`listDeletions, this`failures
      ensures Valid() && listDeletions == old(listDeletions) + multiset{list}
      ensures failures == old(failures) + (if ok then 0 else 1)
    {
      ok := *;
      listDeletions := listDeletions + multiset{list};
      if !ok { failures := failures + 1; }
    }

    /** CreateProcessW: a process handle and a thread handle, or nothing. */
    method CreateSuspendedProcess(streams: seq<nat>, list: nat) returns (r: Option<(nat, nat)>)
      requires Valid() && list in lists
      modifies this`issued, this`open, this`processes, this`made, this`failures
      ensures Valid() && failures == old(failures) + (if r.Some? then 0 else 1)
      ensures r.None? ==> issued == old(issued) && open == old(open) && processes == old(processes) && made == old(made)
      ensures r.Some? ==>
        && r.value == (old(issued), old(issued) + 1) && issued == old(issued) + 2
        && open == old(open) + {r.value.0, r.value.1} && processes == old(processes) + {r.value.0}
        && made == old(made)[r.value.0 := Process(streams, list, lists[list].job in killOnClose)][r.value.1 := Thread(r.value.0)]
    {
      r := None;
      if * {
        r := Some((issued, issued + 1));
        made := made[issued := Process(streams, list, lists[list].job in killOnClose)][issued + 1 := Thread(issued)];
        open, processes, issued := open + {issued, issued + 1}, processes + {issued}, issued + 2;
      } else {
        failures := failures + 1;
      }
    }

    /** abort_suspended_process: terminate, wait, then close the thread and the process, whatever fails. */
    method AbortSuspendedProcess(process: nat, thread: nat) returns (ok: bool)
      requires Valid() && process != thread && process in open && thread in open
      modifies this`open, this`closeCalls, this`refused, this`terminated, this`awaited, this`failures
      ensures Valid() && failures >= old(failures) && (ok <==> failures == old(failures))
      ensures terminated == old(terminated) + {process} && awaited == old(awaited) + {process}
      ensures closeCalls == old(closeCalls) + multiset{thread, process}
      ensures refused >= old(refused) && old(open) - {process, thread} <= open <= old(open)
      ensures forall h | h in {process, thread} && h in open :: h in refused
    {
      terminated, awaited := terminated + {process}, awaited + {process};
      ok := *;
      if !ok { failures := failures + 1; }
      var threadClosed := CloseHandle(thread);
      var processClosed := CloseHandle(process);
      ok := ok && threadClosed && processClosed;
    }

    method SetKillOnClose(job: nat) returns (ok: bool)
      modifies this`killOnClose, this`failures
      ensures failures == old(failures) + (if ok then 0 else 1)
      ensures killOnClose == if ok then old(killOnClose) + {job} else old(killOnClose)
    {
      ok := *;
      if ok { killOnClose := killOnClose + {job}; } else { failures := failures + 1; }
    }

    method ResumeThread(thread: nat) returns (ok: bool)
      modifies this`resumed, this`failures
      ensures failures == old(failures) + (if ok then 0 else 1)
      ensures resumed == if ok then old(resumed) + {thread} else old(resumed)
    {
      ok := *;
      if ok { resumed := resumed + {thread}; } else { failures := failures + 1; }
    }

    method TerminateJob(job: nat) returns (ok: bool)
      modifies this`jobsTerminated, this`failures
      ensures jobsTerminated == old(jobsTerminated) + {job} && failures == old(failures) + (if ok then 0 else 1)
    {
      ok := *;
      if !ok { failures := failures + 1; }
      jobsTerminated := jobsTerminated + {job};
    }

    method WaitForJobEmpty(job: nat) returns (ok: bool)
      modifies this`jobsAwaited, this`failures
      ensures jobsAwaited == old(jobsAwaited) + {job} && failures == old(failures) + (if ok then 0 else 1)
    {
      ok := *;
      if !ok { failures := failures + 1; }
      jobsAwaited := jobsAwaited + {job};
    }
  }

  // The handles open afterwards are those open before and the ones issued from `lo` up to `hi`.
  ghost predicate Grown(before: set<nat>, after: set<nat>, lo: nat, hi: nat) {
    forall h :: h in after <==> h in before || lo <= h < hi
  }

  // One more close attempt on each handle from `lo` up to `hi`, none on any other.
  ghost predicate Attempted(before: multiset<nat>, after: multiset<nat>, lo: nat, hi: nat) {
    forall h :: after[h] == before[h] + (if lo <= h < hi then 1 else 0)
  }

  // Only handles from `lo` up to `hi` were released, and each of those still open was refused.
  ghost predicate Released(before: set<nat>, after: set<nat>, refused: set<nat>, lo: nat, hi: nat) {
    && after <= before
    && (forall h | h in before && h !in after :: lo <= h < hi)
    && (forall h | lo <= h < hi && h in after :: h in refused)
  }

  ghost predicate OnlyRefusedRemain(before: set<nat>, after: set<nat>, refused: set<nat>) {
    && before <= after
    && (forall h | h in after && h !in before :: h in refused)
  }

  lemma GrownAfterRelease(o0: set<nat>, o1: set<nat>, o2: set<nat>, refused: set<nat>, start: nat, middle: nat, end: nat)
    requires start <= middle <= end && (forall h <- o0 :: h < start)
    requires Grown(o0, o1, start, end) && Released(o1, o2, refused, start, middle)
    requires forall h | start <= h < middle :: h !in o2
    ensures Grown(o0, o2, middle, end)
  {}

  lemma RefusedAfterRelease(o0: set<nat>, o1: set<nat>, o2: set<nat>, refused: set<nat>, start: nat, end: nat)
    requires start <= end && (forall h <- o0 :: h < start)
    requires Grown(o0, o1, start, end) && Released(o1, o2, refused, start, end)
    ensures OnlyRefusedRemain(o0, o2, refused)
  {}

  lemma ReleasedOn(o1: set<nat>, o2: set<nat>, o3: set<nat>, refused2: set<nat>, refused3: set<nat>,
                   start: nat, middle: nat, end: nat)
    requires start <= middle <= end && refused2 <= refused3
    requires Released(o1, o2, refused2, start, middle) && Released(o2, o3, refused3, middle, end)
    ensures Released(o1, o3, refused3, start, end)
  {}

  lemma AttemptedOn(a: multiset<nat>, b: multiset<nat>, c: multiset<nat>, start: nat, middle: nat, end: nat)
    requires start <= middle <= end && Attempted(a, b, start, middle) && Attempted(b, c, middle, end)
    ensures Attempted(a, c, start, end)
  {}

  lemma OneAttempted(a: multiset<nat>, l: nat)
    ensures Attempted(a, a + multiset{l}, l, l + 1) && Attempted(a, a + multiset{}, l, l)
  {}

  ghost predicate Kept(before: map<nat, Made>, after: map<nat, Made>) {
    forall h <- before :: h in after && after[h] == before[h]
  }

  // The handle a stream of the child is a copy of: this process's own, or a null handle opened for it.
  ghost predicate Source(standard: map<int, nat>, made: map<nat, Made>, h: nat, stream: int) {
    if stream in standard then h == standard[stream] else h in made && made[h] == NullHandle(stream)
  }

  ghost predicate Sources(standard: map<int, nat>, made: map<nat, Made>, handles: seq<nat>) {
    |handles| <= |STREAMS| && forall i | 0 <= i < |handles| :: Source(standard, made, handles[i], STREAMS[i])
  }

  ghost predicate Copies(made: map<nat, Made>, copies: seq<nat>, handles: seq<nat>) {
    |copies| <= |handles| && forall i | 0 <= i < |copies| :: copies[i] in made && made[copies[i]] == Copy(handles[i])
  }

  /** The streams of a child are copies of this process's standard input, output and error, in this order. */
  ghost predicate Inherited(standard: map<int, nat>, made: map<nat, Made>, streams: seq<nat>) {
    && |streams| == |STREAMS|
    && forall i | 0 <= i < |streams| ::
         streams[i] in made && made[streams[i]].Copy? && Source(standard, made, made[streams[i]].source, STREAMS[i])
  }

  lemma InheritedFrom(standard: map<int, nat>, made: map<nat, Made>, after: map<nat, Made>, handles: seq<nat>, copies: seq<nat>)
    requires Sources(standard, made, handles) && |handles| == |STREAMS| == |copies|
    requires Kept(made, after) && Copies(after, copies, handles)
    ensures Inherited(standard, after, copies)
  {}

  lemma InheritedKept(standard: map<int, nat>, made: map<nat, Made>, after: map<nat, Made>, streams: seq<nat>)
    requires Inherited(standard, made, streams) && Kept(made, after)
    ensures Inherited(standard, after, streams)
  {}

  // The process was made with the copied streams alone inheritable, in the job, and suspended.
  ghost predicate Born(standard: map<int, nat>, made: map<nat, Made>, lists: map<nat, Attributes>,
                       process: nat, thread: nat, job: nat)
  {
    && process in made && made[process].Process? && thread in made && made[thread] == Thread(process)
    && made[process].list in lists && lists[made[process].list] == Attributes(made[process].streams, job)
    && Inherited(standard, made, made[process].streams)
  }

  /** What the first `try` of `create` leaves in the local variables. */
  datatype Acquired = Acquired(
    duplicates: seq<nat>, ownedSources: seq<nat>, list: Option<nat>, result: Option<(nat, nat)>)
  {
    function Middle(start: nat): nat { start + |ownedSources| }

    function End(start: nat): nat { Middle(start) + |duplicates| }

    function Issued(start: nat): nat { if result.Some? then End(start) + 2 else End(start) }

    /** In issue order from `start` on: null handles, duplicates, then the process and its thread. */
    ghost predicate LaidOut(start: nat) {
      && (forall i | 0 <= i < |ownedSources| :: ownedSources[i] == start + i)
      && (forall i | 0 <= i < |duplicates| :: duplicates[i] == Middle(start) + i)
      && (result.Some? ==> result.value == (End(start), End(start) + 1))
    }
  }

  class Launcher {
    const native: Kernel

    constructor (native: Kernel)
      ensures this.native == native
    {
      this.native := native;
    }

    /** The first loop of `create`: a missing standard handle is replaced by a null handle of its own. */
    method StandardHandles() returns (handles: seq<nat>, ownedSources: seq<nat>, failed: bool)
      requires native.Valid()
      modifies native`issued, native`open, native`made, native`failures
      ensures native.Valid() && native.issued == old(native.issued) + |ownedSources|
      ensures forall i | 0 <= i < |ownedSources| :: ownedSources[i] == old(native.issued) + i
      ensures Grown(old(native.open), native.open, old(native.issued), native.issued)
      ensures native.failures >= old(native.failures) && (failed <==> native.failures > old(native.failures))
      ensures !failed ==> |handles| == |STREAMS| && Sources(native.standard, native.made, handles)
    {
      handles, ownedSources, failed := [], [], false;
      for i := 0 to |STREAMS|
        invariant native.Valid() && native.issued == old(native.issued) + |ownedSources|
        invariant forall k | 0 <= k < |ownedSources| :: ownedSources[k] == old(native.issued) + k
        invariant Grown(old(native.open), native.open, old(native.issued), native.issued)
        invariant |handles| == i && !failed && native.failures == old(native.failures)
        invariant Sources(native.standard, native.made, handles)
      {
        var standard := native.StandardHandle(STREAMS[i]);
        if standard.Err? { return handles, ownedSources, true; }
        var handle := standard.value;
        if handle.None? {
          handle := native.Issue(NullHandle(STREAMS[i]));
          if handle.None? { return handles, ownedSources, true; }
          ownedSources := ownedSources + [handle.value];
        }
        handles := handles + [handle.value];
      }
    }

    /** The second loop of `create`: every standard handle is duplicated. */
    method Duplicate(standardHandles: seq<nat>) returns (duplicates: seq<nat>, failed: bool)
      requires native.Valid()
      modifies native`issued, native`open, native`made, native`failures
      ensures native.Valid() && native.issued == old(native.issued) + |duplicates|
      ensures forall i | 0 <= i < |duplicates| :: duplicates[i] == old(native.issued) + i
      ensures Grown(old(native.open), native.open, old(native.issued), native.issued)
      ensures native.failures >= old(native.failures) && (failed <==> native.failures > old(native.failures))
      ensures Kept(old(native.made), native.made)
      ensures !failed ==> |duplicates| == |standardHandles| && Copies(native.made, duplicates, standardHandles)
    {
      duplicates, failed := [], false;
      for i := 0 to |standardHandles|
        invariant native.Valid() && native.issued == old(native.issued) + |duplicates|
        invariant forall k | 0 <= k < |duplicates| :: duplicates[k] == old(native.issued) + k
        invariant Grown(old(native.open), native.open, old(native.issued), native.issued)
        invariant |duplicates| == i && !failed && native.failures == old(native.failures)
        invariant Kept(old(native.made), native.made) && Copies(native.made, duplicates, standardHandles)
      {
        var duplicate := native.Issue(Copy(standardHandles[i]));
        if duplicate.None? { return duplicates, true; }
        duplicates := duplicates + [duplicate.value];
      }
    }

    // Both loops: the copies that the child inherits.
    method PrepareStreams() returns (ownedSources: seq<nat>, duplicates: seq<nat>, failed: bool)
      requires native.Valid()
      modifies native`issued, native`open, native`made, native`failures
      ensures native.Valid() && native.issued == old(native.issued) + |ownedSources| + |duplicates|
      ensures forall i | 0 <= i < |ownedSources| :: ownedSources[i] == old(native.issued) + i
      ensures forall i | 0 <= i < |duplicates| :: duplicates[i] == old(native.issued) + |ownedSources| + i
      ensures Grown(old(native.open), native.open, old(native.issued), native.issued)
      ensures native.failures >= old(native.failures) && (failed <==> native.failures > old(native.failures))
      ensures !failed ==> Inherited(native.standard, native.made, duplicates)
    {
      var handles;
      handles, ownedSources, failed := StandardHandles();
      duplicates := [];
      if failed { return; }
      ghost var made0 := native.made;
      duplicates, failed := Duplicate(handles);
      if !failed { InheritedFrom(native.standard, made0, native.made, handles, duplicates); }
      hide Inherited, Sources, Copies, Kept;
    }

    /** The first `try` of `create`: it stops at the first failing call, keeping what it has. */
    method Acquire(job: nat) returns (a: Acquired)
      requires native.Valid()
      modifies native`issued, native`open, native`made, native`failures, native`listsMade, native`lists, native`processes
      ensures native.Valid() && a.LaidOut(old(native.issued))
      ensures native.issued == a.Issued(old(native.issued))
      ensures Grown(old(native.open), native.open, old(native.issued), native.issued)
      ensures a.list.None? ==> native.listsMade == old(native.listsMade)
      ensures a.list.Some? ==> a.list.value == old(native.listsMade) && native.listsMade == a.list.value + 1
      ensures native.processes == old(native.processes) + if a.result.Some? then {a.result.value.0} else {}
      ensures native.failures >= old(native.failures) && (a.result.None? <==> native.failures > old(native.failures))
      ensures a.result.Some? ==>
        && Born(native.standard, native.made, native.lists, a.result.value.0, a.result.value.1, job)
        && native.made[a.result.value.0].guarded == (job in native.killOnClose)
    {
      hide Inherited;
      var ownedSources, duplicates, failed := PrepareStreams();
      a := Acquired(duplicates, ownedSources, None, None);
      if failed { return; }
      ghost var made := native.made;
      var list := native.CreateAttributeList(duplicates, job);
      a := a.(list := list);
      if list.None? { return; }
      var result := native.CreateSuspendedProcess(duplicates, list.value);
      a := a.(result := result);
      if result.Some? { InheritedKept(native.standard, made, native.made, duplicates); }
    }

    /** One of the two closing loops of `create`: every handle is attempted whatever happened before. */
    method CloseAll(handles: seq<nat>, ghost first: nat, failure: bool) returns (failed: bool)
      requires native.Valid()
      requires forall i | 0 <= i < |handles| :: handles[i] == first + i && handles[i] in native.open
      modifies native`open, native`closeCalls, native`refused, native`failures
      ensures native.Valid() && native.refused >= old(native.refused) && native.failures >= old(native.failures)
      ensures failed <==> failure || native.failures > old(native.failures)
      ensures Attempted(old(native.closeCalls), native.closeCalls, first, first + |handles|)
      ensures Released(old(native.open), native.open, native.refused, first, first + |handles|)
      ensures failed <==> failure || exists h | first <= h < first + |handles| :: h in native.open
    {
      failed := failure;
      for i := 0 to |handles|
        invariant native.Valid() && native.refused >= old(native.refused)
        invariant native.failures >= old(native.failures) && (failed <==> failure || native.failures > old(native.failures))
        invariant Attempted(old(native.closeCalls), native.closeCalls, first, first + i)
        invariant Released(old(native.open), native.open, native.refused, first, first + i)
        invariant failed <==> failure || exists h | first <= h < first + i :: h in native.open
      {
        ghost var before := native.open;
        var ok := native.CloseHandle(handles[i]);
        assert forall h | first <= h < first + i :: h in native.open <==> h in before;
        failed := failed || !ok;
      }
    }

    /** `create` after its first `try`: the attribute list, the duplicates and the null handles are all
        given back, whatever fails on the way. */
    method GiveBack(a: Acquired, ghost start: nat) returns (failed: bool)
      requires native.Valid() && a.LaidOut(start) && (a.list.Some? ==> a.list.value < native.listsMade)
      requires forall h | start <= h < a.End(start) :: h in native.open
      modifies native`open, native`closeCalls, native`refused, native`listDeletions, native`failures
      ensures native.Valid() && native.refused >= old(native.refused) && native.failures >= old(native.failures)
      ensures failed <==> a.result.None? || native.failures > old(native.failures)
      ensures Attempted(old(native.closeCalls), native.closeCalls, start, a.End(start))
      ensures Released(old(native.open), native.open, native.refused, start, a.End(start))
      ensures native.listDeletions ==
        old(native.listDeletions) + if a.list.Some? then multiset{a.list.value} else multiset{}
      ensures !failed ==> a.result.Some? && forall h | start <= h < a.End(start) :: h !in native.open
    {
      failed := a.result.None?;
      if a.list.Some? {
        var deleted := native.DeleteAttributeList(a.list.value);
        failed := failed || !deleted;
      }
      failed := CloseAll(a.duplicates, a.Middle(start), failed);
      failed := CloseAll(a.ownedSources, start, failed);
    }

    /** The end of `create` once something failed: a process that was made is aborted. */
    method Abort(a: Acquired, ghost start: nat)
      requires native.Valid() && a.LaidOut(start)
      requires a.result.Some? ==> a.End(start) in native.open && a.End(start) + 1 in native.open
      modifies native`open, native`closeCalls, native`refused, native`terminated, native`awaited, native`failures
      ensures native.Valid() && native.refused >= old(native.refused) && native.failures >= old(native.failures)
      ensures Attempted(old(native.closeCalls), native.closeCalls, a.End(start), a.Issued(start))
      ensures Released(old(native.open), native.open, native.refused, a.End(start), a.Issued(start))
      ensures native.terminated == old(native.terminated) + if a.result.Some? then {a.End(start)} else {}
      ensures native.awaited == old(native.awaited) + if a.result.Some? then {a.End(start)} else {}
    {
      if a.result.Some? {
        var ok := native.AbortSuspendedProcess(a.result.value.0, a.result.value.1);
      }
    }

    /** What `create` does with all that its first `try` acquired. */
    method Conclude(a: Acquired, ghost start: nat) returns (r: Option<(nat, nat)>)
      requires native.Valid() && a.LaidOut(start) && (a.list.Some? ==> a.list.value < native.listsMade)
      requires forall h | start <= h < a.Issued(start) :: h in native.open
      modifies native`open, native`closeCalls, native`refused, native`listDeletions, native`terminated, native`awaited,
        native`failures
      ensures native.Valid() && native.refused >= old(native.refused) && (r.Some? ==> r == a.result)
      ensures native.failures >= old(native.failures)
      ensures r.None? <==> a.result.None? || native.failures > old(native.failures)
      ensures
        var end := if r.Some? then a.End(start) else a.Issued(start);
        && Attempted(old(native.closeCalls), native.closeCalls, start, end)
        && Released(old(native.open), native.open, native.refused, start, end)
      ensures r.Some? ==> forall h | start <= h < a.End(start) :: h !in native.open
      ensures native.listDeletions ==
        old(native.listDeletions) + if a.list.Some? then multiset{a.list.value} else multiset{}
      ensures native.terminated == old(native.terminated) + if r.None? && a.result.Some? then {a.End(start)} else {}
      ensures native.awaited == old(native.awaited) + if r.None? && a.result.Some? then {a.End(start)} else {}
    {
      ghost var open1, calls1, middle, end := native.open, native.closeCalls, a.End(start), a.Issued(start);
      var failed := GiveBack(a, start);
      if !failed { return a.result; }
      ghost var open2, calls2, refused2 := native.open, native.closeCalls, native.refused;
      Abort(a, start);
      ReleasedOn(open1, open2, native.open, refused2, native.refused, start, middle, end);
      AttemptedOn(calls1, calls2, native.closeCalls, start, middle, end);
      hide Released, Attempted;
      return None;
    }

    /** `create`. */
    method Create(job: nat) returns (r: Option<(nat, nat)>)
      requires native.Valid()
      modifies native`issued, native`open, native`closeCalls, native`refused, native`listsMade, native`lists, native`made,
        native`listDeletions, native`processes, native`terminated, native`awaited, native`failures
      // It fails exactly when some call failed.
      ensures native.failures >= old(native.failures) && (r.None? <==> native.failures > old(native.failures))
      // On success the process is in the job and has copies of this process's standard streams.
      ensures r.Some? ==>
        && Born(native.standard, native.made, native.lists, r.value.0, r.value.1, job)
        && native.made[r.value.0].guarded == (job in native.killOnClose)
      ensures native.Valid() && native.issued >= old(native.issued) && native.refused >= old(native.refused)
      // On success the process and its thread are open, and of all other handles what was open before.
      ensures r.Some? ==> r.value == (native.issued - 2, native.issued - 1) && native.issued >= old(native.issued) + 2
      ensures r.Some? ==> Grown(old(native.open), native.open, native.issued - 2, native.issued)
      // Each handle obtained, the two handed over excepted, is attempted exactly once; no other is.
      ensures Attempted(old(native.closeCalls), native.closeCalls, old(native.issued),
        if r.Some? then native.issued - 2 else native.issued)
      // After a failure a handle is open only if it was before or the system refused to close it.
      ensures r.None? ==> OnlyRefusedRemain(old(native.open), native.open, native.refused)
      // The attribute list, if it was made, is deleted once.
      ensures Attempted(old(native.listDeletions), native.listDeletions, old(native.listsMade), native.listsMade)
      // After a failure every process made has been aborted; after success its process has not.
      ensures r.Some? ==> native.processes == old(native.processes) + {r.value.0}
      ensures r.Some? ==> native.terminated == old(native.terminated) && native.awaited == old(native.awaited)
      ensures native.terminated >= old(native.terminated) && native.processes >= old(native.processes)
      ensures r.None? ==> forall p | p in native.processes && p !in old(native.processes) ::
        p in native.terminated && p in native.awaited
    {
      hide Born, Inherited;
      ghost var start, list, open0 := native.issued, native.listsMade, native.open;
      var a := Acquire(job);
      ghost var open1 := native.open;
      OneAttempted(native.listDeletions, list);
      r := Conclude(a, start);
      Accounted(a, open0, open1, native.open, native.refused, start, r.Some?);
      hide Released, OnlyRefusedRemain, Grown;
    }
  }

  lemma Accounted(a: Acquired, open0: set<nat>, open1: set<nat>, open2: set<nat>, refused: set<nat>, start: nat, ok: bool)
    requires (forall h <- open0 :: h < start) && Grown(open0, open1, start, a.Issued(start)) && (ok ==> a.result.Some?)
    requires Released(open1, open2, refused, start, if ok then a.End(start) else a.Issued(start))
    requires ok ==> forall h | start <= h < a.End(start) :: h !in open2
    ensures ok ==> Grown(open0, open2, a.End(start), a.Issued(start))
    ensures !ok ==> OnlyRefusedRemain(open0, open2, refused)
  {
    if ok {
      GrownAfterRelease(open0, open1, open2, refused, start, a.End(start), a.Issued(start));
    } else {
      RefusedAfterRelease(open0, open1, open2, refused, start, a.Issued(start));
    }
  }

  // Each handle from `lo` up to `hi` was attempted at least once and no other handle was attempted.
  ghost predicate AllAttempted(before: multiset<nat>, after: multiset<nat>, lo: nat, hi: nat) {
    forall h :: if lo <= h < hi then after[h] > before[h] else after[h] == before[h]
  }

  // One more attempt on each handle of `held`, none on any other.
  ghost predicate AttemptedOnce(before: multiset<nat>, after: multiset<nat>, held: set<nat>) {
    forall h :: after[h] == before[h] + (if h in held then 1 else 0)
  }

  ghost predicate ReleasedFrom(before: set<nat>, after: set<nat>, refused: set<nat>, held: set<nat>) {
    && after <= before
    && (forall h | h in before && h !in after :: h in held)
    && (forall h | h in held && h in after :: h in refused)
  }

  ghost function Held(handles: seq<Option<nat>>): (held: set<nat>)
    ensures forall h :: h in held <==> Some(h) in handles
  {
    if handles == [] then {} else One(handles[0]) + Held(handles[1..])
  }

  ghost function One(handle: Option<nat>): set<nat> {
    match handle case None => {} case Some(h) => {h}
  }

  lemma HeldThree(a: Option<nat>, b: Option<nat>, c: Option<nat>)
    ensures Held([a, b, c]) == One(a) + One(b) + One(c)
    ensures Held([a, b]) == One(a) + One(b)
  {
    assert [a, b, c][1..] == [b, c] && [b, c][1..] == [c] && [a, b][1..] == [b] && [b][1..] == [] == [c][1..];
  }

  ghost predicate Distinct(handles: seq<Option<nat>>) {
    forall i, j | 0 <= i < j < |handles| && handles[i].Some? :: handles[i] != handles[j]
  }

  lemma HeldNext(handles: seq<Option<nat>>, i: nat)
    requires Distinct(handles) && i < |handles|
    ensures handles[i].None? ==> Held(handles[..i + 1]) == Held(handles[..i])
    ensures handles[i].Some? ==>
      && Held(handles[..i + 1]) == Held(handles[..i]) + {handles[i].value}
      && handles[i].value !in Held(handles[..i]) && handles[i].value in Held(handles)
  {
    hide Held;
    assert handles[..i + 1] == handles[..i] + [handles[i]];
  }

  /** The loop `_rollback_start` and `close` share: `None` is skipped, and a failed close does not stop it. */
  method CloseHeld(native: Kernel, handles: seq<Option<nat>>) returns (failed: bool)
    requires native.Valid() && Distinct(handles) && Held(handles) <= native.open
    modifies native`open, native`closeCalls, native`refused, native`failures
    ensures native.Valid() && native.refused >= old(native.refused) && native.failures >= old(native.failures)
    ensures AttemptedOnce(old(native.closeCalls), native.closeCalls, Held(handles))
    ensures ReleasedFrom(old(native.open), native.open, native.refused, Held(handles))
    ensures failed <==> !(Held(handles) !! native.open)
  {
    hide Held, Distinct;
    failed := false;
    ghost var bad := 0;
    for i := 0 to |handles|
      invariant native.Valid() && native.refused >= old(native.refused) && native.failures >= old(native.failures)
      invariant AttemptedOnce(old(native.closeCalls), native.closeCalls, Held(handles[..i]))
      invariant ReleasedFrom(old(native.open), native.open, native.refused, Held(handles[..i]))
      invariant !failed ==> Held(handles[..i]) !! native.open
      invariant failed ==> bad in Held(handles[..i]) && bad in native.open
    {
      HeldNext(handles, i);
      if handles[i].Some? {
        var ok := native.CloseHandle(handles[i].value);
        if !ok { failed, bad := true, handles[i].value; }
      }
    }
    assert handles[..|handles|] == handles;
  }

  class WindowsChild {
    const native: Kernel
    var job: Option<nat>
    var process: Option<nat>

    ghost predicate Valid()
      reads this, native
    {
      native.Valid() && Distinct([process, job]) && One(process) + One(job) <= native.open
    }

    constructor (native: Kernel, job: nat, process: nat)
      requires native.Valid() && job in native.open && process in native.open && job != process
      ensures Valid() && this.native == native && this.job == Some(job) && this.process == Some(process)
    {
      this.native, this.job, this.process := native, Some(job), Some(process);
    }

    /** `start`, with `_rollback_start` on every path that does not return a child. */
    static method Start(native: Kernel) returns (child: WindowsChild?)
      requires native.Valid()
      modifies native
      ensures native.Valid() && native.issued >= old(native.issued) && native.refused >= old(native.refused)
      // It fails exactly when some call failed.
      ensures native.failures >= old(native.failures) && (child == null <==> native.failures > old(native.failures))
      // The process of a started child was made in its job, which killed on close by then, and it runs.
      ensures child != null ==>
        && native.issued >= 2 && Born(native.standard, native.made, native.lists, native.issued - 2, native.issued - 1, old(native.issued))
        && native.made[native.issued - 2].guarded && native.issued - 1 in native.resumed
      // A started child owns its job and its process, and nothing else stays open.
      ensures child != null ==>
        && fresh(child) && child.native == native && child.Valid()
        && child.job == Some(old(native.issued)) && child.process == Some(native.issued - 2)
        && OnlyAdded(old(native.open), native.open, old(native.issued), native.issued - 2)
      // A start that fails leaves no handle unattempted, and open only what the system refused to close.
      ensures child == null ==>
        && AllAttempted(old(native.closeCalls), native.closeCalls, old(native.issued), native.issued)
        && OnlyRefusedRemain(old(native.open), native.open, native.refused)
      // A process made by a failing start was killed by itself or with its job, and waited for.
      ensures child == null ==> forall p | p in native.processes && p !in old(native.processes) ::
        || (p in native.terminated && p in native.awaited)
        || (old(native.issued) in native.jobsTerminated && old(native.issued) in native.jobsAwaited)
    {
      hide Held, Born;
      child := null;
      var job := native.Issue(Job);
      if job.None? { return; }
      var killOnClose := native.SetKillOnClose(job.value);
      if !killOnClose {
        RollbackStart(native, job, None, None);
        return;
      }
      var process := Launch(native, job.value);
      if process.Some? { child := new WindowsChild(native, job.value, process.value); }
    }

    /** The rest of `start`, once there is a job. */
    static method Launch(native: Kernel, job: nat) returns (process: Option<nat>)
      requires native.Valid() && job in native.open && job + 1 == native.issued
      modifies native
      ensures native.Valid() && native.issued >= old(native.issued) && native.refused >= old(native.refused)
      ensures native.failures >= old(native.failures) && (process.None? <==> native.failures > old(native.failures))
      ensures process.Some? ==>
        && Born(native.standard, native.made, native.lists, process.value, native.issued - 1, job) && native.issued - 1 in native.resumed
        && native.made[process.value].guarded == (job in old(native.killOnClose))
      ensures process.Some? ==>
        && process.value == native.issued - 2 && process.value > job
        && (forall h :: h in native.open <==> h in old(native.open) || h == process.value)
      ensures process.None? ==>
        && AllAttempted(old(native.closeCalls), native.closeCalls, job, native.issued)
        && OnlyRefusedRemain(old(native.open) - {job}, native.open, native.refused)
      ensures process.None? ==> forall p | p in native.processes && p !in old(native.processes) ::
        || (p in native.terminated && p in native.awaited)
        || (job in native.jobsTerminated && job in native.jobsAwaited)
    {
      var launcher := new Launcher(native);
      var created := launcher.Create(job);
      if created.None? {
        RollbackStart(native, Some(job), None, None);
        return None;
      }
      var resumed := ResumeAndForget(native, job, created.value.0, created.value.1);
      return if resumed then Some(created.value.0) else None;
    }

    /** The end of `start`: resume, close the thread handle, and roll back if either fails. */
    static method ResumeAndForget(native: Kernel, job: nat, process: nat, thread: nat) returns (ok: bool)
      requires native.Valid() && {job, process, thread} <= native.open
      requires job != process && job != thread && process != thread
      modifies native`open, native`closeCalls, native`refused, native`jobsTerminated, native`jobsAwaited, native`resumed,
        native`failures
      ensures native.Valid() && native.refused >= old(native.refused)
      ensures native.failures >= old(native.failures) && (ok <==> native.failures == old(native.failures))
      ensures ok ==> native.open == old(native.open) - {thread} && thread in native.resumed
      ensures !ok ==> ReleasedFrom(old(native.open), native.open, native.refused, {job, process, thread})
      ensures !ok ==> job in native.jobsTerminated && job in native.jobsAwaited
      ensures !ok ==> forall h ::
        if h in {job, process, thread} then native.closeCalls[h] > old(native.closeCalls[h])
        else native.closeCalls[h] == old(native.closeCalls[h])
    {
      ok := native.ResumeThread(thread);
      if ok { ok := native.CloseHandle(thread); }
      if !ok { RollbackStart(native, Some(job), Some(process), Some(thread)); }
    }

    /** `_rollback_start`. A handle still held is attempted even when an earlier step failed. */
    static method RollbackStart(native: Kernel, job: Option<nat>, process: Option<nat>, thread: Option<nat>)
      requires native.Valid()
      requires Distinct([thread, process, job]) && One(thread) + One(process) + One(job) <= native.open
      modifies native`open, native`closeCalls, native`refused, native`jobsTerminated, native`jobsAwaited, native`failures
      ensures native.Valid() && native.refused >= old(native.refused) && native.failures >= old(native.failures)
      ensures AttemptedOnce(old(native.closeCalls), native.closeCalls, One(thread) + One(process) + One(job))
      ensures ReleasedFrom(old(native.open), native.open, native.refused, One(thread) + One(process) + One(job))
      ensures process.Some? && job.Some? ==> job.value in native.jobsTerminated && job.value in native.jobsAwaited
    {
      hide Held, Distinct;
      HeldThree(thread, process, job);
      if process.Some? && job.Some? {
        var terminated := native.TerminateJob(job.value);
        var emptied := native.WaitForJobEmpty(job.value);
      }
      var failed := CloseHeld(native, [thread, process, job]);
    }

    /** `close`: both handles are forgotten and attempted, and it fails exactly when one was refused. */
    method Close() returns (ok: bool)
      requires Valid()
      modifies this`job, this`process, native
      ensures Valid() && job == None && process == None
      ensures AttemptedOnce(old(native.closeCalls), native.closeCalls, old(One(process) + One(job)))
      ensures ReleasedFrom(old(native.open), native.open, native.refused, old(One(process) + One(job)))
      ensures ok <==> old(One(process) + One(job)) !! native.open
    {
      var handles := [process, job];
      HeldThree(process, job, None);
      process, job := None, None;
      var failed := CloseHeld(native, handles);
      ok := !failed;
    }
  }

  ghost predicate OnlyAdded(before: set<nat>, after: set<nat>, job: nat, process: nat) {
    forall h :: h in after <==> h in before || h == job || h == process
  }
}
