/**
  The durable cursor stream of a run. The log only grows and its sequence numbers increase; a load
  returns every record above the cursor, in order. A poll is what one turn of the loop observes: the
  log at its load, and whether the run was terminal at its status check.
*/
module RunStream {
  const TERMINAL_IDLE_POLLS := 2

  datatype Record = Record(seqno: int, event: string)

  type Log = seq<Record>

  datatype Poll = Poll(log: Log, terminal: bool)

  ghost predicate Increasing(log: Log) {
    forall i, j | 0 <= i < j < |log| :: log[i].seqno < log[j].seqno
  }

  // The logs of successive observations: each increasing, and extending the one before.
  ghost predicate Growing(logs: seq<Log>) {
    && (forall i | 0 <= i < |logs| :: Increasing(logs[i]))
    && (forall i, j | 0 <= i < j < |logs| :: logs[i] <= logs[j])
  }

  function Logs(polls: seq<Poll>): seq<Log> { seq(|polls|, i requires 0 <= i < |polls| => polls[i].log) }

  function Above(log: Log, cursor: int): Log {
    if log == [] then []
    else if log[0].seqno > cursor then [log[0]] + Above(log[1..], cursor)
    else Above(log[1..], cursor)
  }

  // The id a client resumes from: the last one it was given, or the one it started from.
  function Cursor(received: Log, start: int): int {
    if received == [] then start else received[|received| - 1].seqno
  }

  // The records above the start that had been written when poll `i` loaded, none before the first.
  function Written(polls: seq<Poll>, start: int, i: int): Log
    requires i < |polls|
  {
    if i < 0 then [] else Above(polls[i].log, start)
  }

  // Poll `i` saw the run terminal and nothing new since the poll before it.
  predicate Idle(polls: seq<Poll>, start: int, i: nat)
    requires i < |polls|
  {
    polls[i].terminal && Written(polls, start, i) == Written(polls, start, i - 1)
  }

  predicate Finishing(polls: seq<Poll>, start: int, i: nat)
    requires 1 <= i < |polls|
  {
    Idle(polls, start, i - 1) && Idle(polls, start, i)
  }

  lemma {:induction false} AboveDistributes(a: Log, b: Log, cursor: int)
    ensures Above(a + b, cursor) == Above(a, cursor) + Above(b, cursor)
    decreases |a|
  {
    if a == [] {
      assert a + b == b;
    } else {
      assert (a + b)[1..] == a[1..] + b;
      AboveDistributes(a[1..], b, cursor);
    }
  }

  lemma {:induction false} AboveElements(log: Log, cursor: int)
    ensures forall r :: r in Above(log, cursor) <==> r in log && r.seqno > cursor
    ensures (forall r <- log :: r.seqno > cursor) ==> Above(log, cursor) == log
  {
    if log != [] {
      AboveElements(log[1..], cursor);
      assert log == [log[0]] + log[1..];
    }
  }

  lemma {:induction false} AboveIncreases(log: Log, cursor: int)
    requires Increasing(log)
    ensures Increasing(Above(log, cursor))
  {
    if log != [] {
      AboveIncreases(log[1..], cursor);
      var rest := Above(log[1..], cursor);
      forall i | 0 <= i < |rest| ensures rest[i].seqno > log[0].seqno {
        AboveElements(log[1..], cursor);
        assert rest[i] in log[1..];
      }
    }
  }

  lemma {:induction false} AboveTwice(log: Log, low: int, high: int)
    requires low <= high
    ensures Above(Above(log, low), high) == Above(log, high)
  {
    if log != [] {
      AboveTwice(log[1..], low, high);
      if log[0].seqno > low { assert Above(log, low)[1..] == Above(log[1..], low); }
    }
  }

  lemma {:induction false} NoneAbove(log: Log, cursor: int)
    requires forall i | 0 <= i < |log| :: log[i].seqno <= cursor
    ensures Above(log, cursor) == []
  {
    if log != [] { NoneAbove(log[1..], cursor); }
  }

  lemma AboveLast(log: Log, k: nat)
    requires Increasing(log) && 0 < k <= |log|
    ensures Above(log, log[k - 1].seqno) == log[k..]
  {
    hide Above;
    var last := log[k - 1].seqno;
    AboveDistributes(log[..k], log[k..], last);
    assert log == log[..k] + log[k..];
    NoneAbove(log[..k], last);
    AboveElements(log[k..], last);
  }

  /** Asking again from the last of the first `k` records gives the records after them. */
  lemma AboveAgain(log: Log, cursor: int, k: nat)
    requires Increasing(log) && k <= |Above(log, cursor)|
    ensures Above(log, Cursor(Above(log, cursor)[..k], cursor)) == Above(log, cursor)[k..]
  {
    hide Above;
    if k > 0 {
      var above := Above(log, cursor);
      AboveIncreases(log, cursor);
      AboveElements(log, cursor);
      assert above[k - 1] in above;
      AboveTwice(log, cursor, above[k - 1].seqno);
      AboveLast(above, k);
    }
  }

  /** Resuming from the last delivered id continues where the delivery stopped, also when the log has
      grown meanwhile. */
  lemma ResumeContinues(log: Log, later: Log, start: int, k: nat)
    requires Increasing(later) && log <= later && k <= |Above(log, start)|
    ensures Above(log, start) <= Above(later, start)
    ensures Above(later, Cursor(Above(log, start)[..k], start)) == Above(later, start)[k..]
  {
    assert later == log + later[|log|..];
    AboveDistributes(log, later[|log|..], start);
    AboveAgain(later, start, k);
    assert Above(log, start)[..k] == Above(later, start)[..k];
  }

  // ---- Any number of disconnects

  /** One connection: how far the log had grown at its last load, and how many records the client
      received before it went away. */
  datatype Session = Session(log: Log, received: nat)

  ghost predicate Feasible(sessions: seq<Session>, start: int)
    decreases |sessions|
  {
    sessions != [] ==>
      && sessions[0].received <= |Above(sessions[0].log, start)|
      && Feasible(sessions[1..], Cursor(Above(sessions[0].log, start)[..sessions[0].received], start))
  }

  // Everything the client received, each connection resumed from the last id it had.
  function Received(sessions: seq<Session>, start: int): Log
    decreases |sessions|
  {
    if sessions == [] then [] else
      var first := Above(sessions[0].log, start);
      var got := if sessions[0].received <= |first| then first[..sessions[0].received] else first;
      got + Received(sessions[1..], Cursor(got, start))
  }

  /** Whatever the disconnects, the client has received a prefix of the records above its first
      cursor, in order and once each; when its last connection delivered everything that was written,
      it has received what one uninterrupted connection would have delivered. */
  lemma {:induction false} DisconnectsLoseNothing(sessions: seq<Session>, start: int, log: Log)
    requires Increasing(log) && Feasible(sessions, start)
    requires forall s <- sessions :: s.log <= log
    ensures Received(sessions, start) <= Above(log, start)
    ensures
      var n := |sessions|;
      n > 0 && sessions[n - 1].log == log && CaughtUp(sessions, start) ==> Received(sessions, start) == Above(log, start)
    decreases |sessions|
  {
    if sessions != [] {
      var s := sessions[0];
      var got := Above(s.log, start)[..s.received];
      ResumeContinues(s.log, log, start, s.received);
      DisconnectsLoseNothing(sessions[1..], Cursor(got, start), log);
      assert got == Above(log, start)[..s.received];
      assert Above(log, start) == got + Above(log, start)[s.received..];
      if |sessions| > 1 { assert sessions[1..][|sessions| - 2] == sessions[|sessions| - 1]; }
    }
  }

  // The last connection delivered everything above the cursor it resumed from.
  predicate CaughtUp(sessions: seq<Session>, start: int)
    decreases |sessions|
  {
    if sessions == [] then false
    else if |sessions| == 1 then sessions[0].received == |Above(sessions[0].log, start)|
    else
      var first := Above(sessions[0].log, start);
      sessions[0].received <= |first| && CaughtUp(sessions[1..], Cursor(first[..sessions[0].received], start))
  }

  // ---- The loop

  // What one load yields, one record at a time, keeping the cursor at the greatest id yielded.
  method Deliver(delivered: Log, records: Log, ghost start: int, currentSeq: int)
    returns (all: Log, cursor: int)
    requires currentSeq == Cursor(delivered, start)
    requires Increasing(records) && forall r <- records :: r.seqno > currentSeq
    ensures all == delivered + records && cursor == Cursor(all, start)
  {
    all, cursor := delivered, currentSeq;
    for k := 0 to |records|
      invariant all == delivered + records[..k]
      invariant cursor == Cursor(all, start)
      invariant cursor == if k == 0 then currentSeq else records[k - 1].seqno
    {
      cursor := if records[k].seqno > cursor then records[k].seqno else cursor;
      all := all + [records[k]];
    }
  }

  /** `_iter_persisted_run_records` over `polls`, the observations its turns make; the client leaves
      when they run out. */
  method StreamRecords(start: int, polls: seq<Poll>) returns (delivered: Log, used: nat, stopped: bool)
    requires Growing(Logs(polls))
    ensures used <= |polls| && (!stopped ==> used == |polls|)
    // Exactly the records above the cursor, in order and once each, up to the last load.
    ensures delivered == Written(polls, start, used - 1)
    // It stops at the first pair of consecutive idle reads of a terminal run, and only there.
    ensures stopped ==> used >= 2 && Idle(polls, start, used - 1) && Idle(polls, start, used - 2)
    ensures forall i | 1 <= i < (if stopped then used - 1 else used) :: !Finishing(polls, start, i)
  {
    hide Above, Increasing;
    var currentSeq := start;
    var terminalIdlePolls := 0;
    delivered, used := [], 0;
    while used < |polls|
      invariant used <= |polls|
      invariant delivered == Written(polls, start, used - 1)
      invariant currentSeq == Cursor(delivered, start)
      invariant terminalIdlePolls == if used > 0 && Idle(polls, start, used - 1) then 1 else 0
      invariant forall i | 1 <= i < used :: !Finishing(polls, start, i)
    {
      var poll := polls[used];
      NextLoad(polls, start, used);
      used := used + 1;
      var records := Above(poll.log, currentSeq);
      if records != [] {
        terminalIdlePolls := 0;
        delivered, currentSeq := Deliver(delivered, records, start, currentSeq);
        continue;
      }
      if poll.terminal {
        terminalIdlePolls := terminalIdlePolls + 1;
        if terminalIdlePolls >= TERMINAL_IDLE_POLLS { return delivered, used, true; }
      } else {
        terminalIdlePolls := 0;
      }
    }
    return delivered, used, false;
  }

  // What the next load returns is what was written since the last one.
  lemma NextLoad(polls: seq<Poll>, start: int, i: nat)
    requires Growing(Logs(polls)) && i < |polls|
    ensures Written(polls, start, i) ==
            Written(polls, start, i - 1) + Above(polls[i].log, Cursor(Written(polls, start, i - 1), start))
    ensures
      var cursor := Cursor(Written(polls, start, i - 1), start);
      Increasing(Above(polls[i].log, cursor)) && forall r <- Above(polls[i].log, cursor) :: r.seqno > cursor
  {
    hide Above, Increasing;
    var logs := Logs(polls);
    assert Increasing(logs[i]);
    var cursor := Cursor(Written(polls, start, i - 1), start);
    AboveIncreases(polls[i].log, cursor);
    AboveElements(polls[i].log, cursor);
    if i > 0 {
      assert logs[i - 1] <= logs[i];
      var before := Above(polls[i - 1].log, start);
      ResumeContinues(polls[i - 1].log, polls[i].log, start, |before|);
      assert before[..|before|] == before;
    }
  }
}
