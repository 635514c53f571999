/**
  The A2A message stream: chunks are emitted one behind, so that the last one can be flagged. While
  the stream waits, other requests may cancel the task or submit to it again, and a request that
  submitted again goes on to run the graph itself; all of them write the record the stream shares.
*/
module A2AStream {
  import opened Wrappers

  datatype TaskState = Submitted | Working | Completed | Failed | Cancelled

  datatype Task = Task(state: TaskState, statusMessage: string, artifacts: seq<string>, cancellationRequested: bool)

  // What another request does to the task; all but the first two are writes of the send or the stream
  // that a resubmission starts: it begins, fails, completes, or was cancelled and leaves its artifacts.
  datatype Meddling =
    | CancelRequest
    | Resubmission
    | OtherBegins
    | OtherFails(message: string)
    | OtherCompletes(text: string)
    | OtherStops(texts: seq<string>)

  // What the queue hands to a turn: nothing in time, the graph's error, its end, or an item with the
  // text of its chunk, if it has any, and the text it would have as a final output.
  datatype Input = Timeout | Error(message: string) | Done | Item(chunk: Option<string>, output: string)

  // What happens to the task before the turn's cancellation test, and what the turn is given.
  datatype Turn = Turn(before: seq<Meddling>, input: Input)

  // `closing` happens while the producer is awaited, `gap` while the last artifact is being consumed.
  datatype Script = Script(turns: seq<Turn>, closing: seq<Meddling>, gap: seq<Meddling>)

  datatype Event = Status(state: TaskState, final: bool) | Artifact(text: string, lastChunk: bool)

  datatype Outcome = StillRunning | WasCancelled | HasFailed | HasCompleted

  // The output text of no item at all, or of an empty one.
  const NO_OUTPUT := "{}"

  predicate Terminal(state: TaskState) { state.Completed? || state.Failed? || state.Cancelled? }

  function Meddle(task: Task, m: Meddling): Task {
    match m
    case CancelRequest =>
      if Terminal(task.state) then task
      else task.(cancellationRequested := true, state := Cancelled, statusMessage := "Task cancelled")
    case Resubmission => Task(Submitted, "", [], false)
    case OtherBegins => task.(state := Working)
    case OtherFails(message) => task.(state := Failed, statusMessage := message)
    case OtherCompletes(text) => task.(state := Completed, artifacts := [text])
    case OtherStops(texts) => task.(artifacts := texts)
  }

  function Meddled(task: Task, meddlings: seq<Meddling>): Task
    decreases |meddlings|
  {
    if meddlings == [] then task else Meddled(Meddle(task, meddlings[0]), meddlings[1..])
  }

  // The task once the first `k` turns have been through their cancellation test.
  function Seen(task: Task, turns: seq<Turn>, k: nat): Task
    requires k <= |turns|
  {
    if k == 0 then task else Meddled(Seen(task, turns, k - 1), turns[k - 1].before)
  }

  // Turn `k` leaves the loop.
  predicate Leaves(task: Task, turns: seq<Turn>, k: nat)
    requires k < |turns|
  {
    Seen(task, turns, k + 1).cancellationRequested || turns[k].input.Error? || turns[k].input.Done?
  }

  /** The outcome of the turn that leaves the loop. */
  function OutcomeOf(task: Task, script: Script, k: nat): Outcome
    requires k < |script.turns|
  {
    var seen, input := Seen(task, script.turns, k + 1), script.turns[k].input;
    if seen.cancellationRequested then WasCancelled
    else if input.Error? then HasFailed
    else if Meddled(seen, script.closing).cancellationRequested then WasCancelled
    else HasCompleted
  }

  /** The stream ends as `o`, in turn `k`: the first that leaves the loop. */
  ghost predicate Ends(task: Task, script: Script, o: Outcome, k: nat) {
    && k <= |script.turns|
    && (forall i | 0 <= i < k :: !Leaves(task, script.turns, i))
    && (k == |script.turns| ==> o == StillRunning)
    && (k < |script.turns| ==> Leaves(task, script.turns, k) && o == OutcomeOf(task, script, k))
  }

  // The task once a cancelled stream has emitted its final status.
  function CancelledTask(task: Task, script: Script, k: nat): Task
    requires k < |script.turns|
  {
    var seen := Seen(task, script.turns, k + 1);
    var found := if seen.cancellationRequested then seen else Meddled(seen, script.closing);
    var chunks := Chunks(script.turns[..k]);
    if chunks == [] then found.(artifacts := [])
    else Meddled(found.(artifacts := [chunks[|chunks| - 1]]), script.gap)
  }

  // The texts of the chunks the graph produced in `turns`.
  function Chunks(turns: seq<Turn>): seq<string> {
    if turns == [] then [] else
      var input := turns[|turns| - 1].input;
      Chunks(turns[..|turns| - 1]) + if input.Item? && input.chunk.Some? then [input.chunk.value] else []
  }

  function FinalText(turns: seq<Turn>): string {
    if turns == [] then NO_OUTPUT else
      var input := turns[|turns| - 1].input;
      if input.Item? then input.output else FinalText(turns[..|turns| - 1])
  }

  function Unflagged(texts: seq<string>): seq<Event> {
    seq(|texts|, i requires 0 <= i < |texts| => Artifact(texts[i], false))
  }

  function LastFlagged(texts: seq<string>): seq<Event> {
    seq(|texts|, i requires 0 <= i < |texts| => Artifact(texts[i], i == |texts| - 1))
  }

  /** The artifacts a stream emits when it ends as `o` after `turns`. */
  function Artifacts(o: Outcome, turns: seq<Turn>): seq<Event> {
    var chunks := Chunks(turns);
    match o
    case StillRunning => Unflagged(if chunks == [] then [] else chunks[..|chunks| - 1])
    case HasFailed => Unflagged(if chunks == [] then [] else chunks[..|chunks| - 1])
    case WasCancelled => LastFlagged(chunks)
    case HasCompleted =>
      if chunks != [] then LastFlagged(chunks)
      else if FinalText(turns) != "" then LastFlagged([FinalText(turns)])
      else []
  }

  /** Everything a stream emits when it ends as `o` after `turns` with the task in `state`. */
  function Emitted(o: Outcome, turns: seq<Turn>, state: TaskState): seq<Event> {
    [Status(Working, false)] + Artifacts(o, turns) + (if o.StillRunning? then [] else [Status(state, true)])
  }

  predicate NonEmptyChunks(turns: seq<Turn>) {
    forall i | 0 <= i < |turns| && turns[i].input.Item? :: turns[i].input.chunk != Some("")
  }

  lemma {:induction false} ChunksAreNonEmpty(turns: seq<Turn>)
    requires NonEmptyChunks(turns)
    ensures forall c <- Chunks(turns) :: c != ""
  {
    if turns != [] { ChunksAreNonEmpty(turns[..|turns| - 1]); }
  }

  // The pending text is the last chunk; everything before it has been emitted.
  predicate OneBehind(events: seq<Event>, pending: Option<string>, turns: seq<Turn>) {
    var chunks := Chunks(turns);
    && (pending.Some? <==> chunks != [])
    && (pending.Some? ==> pending.value == chunks[|chunks| - 1])
    && events == [Status(Working, false)] + Unflagged(if chunks == [] then [] else chunks[..|chunks| - 1])
  }

  lemma FlagTheLast(texts: seq<string>)
    requires texts != []
    ensures Unflagged(texts[..|texts| - 1]) + [Artifact(texts[|texts| - 1], true)] == LastFlagged(texts)
    ensures Unflagged(texts[..|texts| - 1]) + [Artifact(texts[|texts| - 1], false)] == Unflagged(texts)
  {}

  /** The record of one task, shared by the requests that name it. */
  class TaskRecord {
    var state: TaskState
    var statusMessage: string
    var artifacts: seq<string>
    var cancellationRequested: bool

    constructor ()
      ensures Now() == Task(Submitted, "", [], false)
    {
      state, statusMessage, artifacts, cancellationRequested := Submitted, "", [], false;
    }

    function Now(): Task
      reads this
    {
      Task(state, statusMessage, artifacts, cancellationRequested)
    }

    /** `_cancel_task`. */
    method Cancel()
      modifies this
      ensures Now() == Meddle(old(Now()), CancelRequest)
      ensures old(state) in [Completed, Failed, Cancelled] ==> Now() == old(Now())
      ensures old(state) in [Submitted, Working] ==> Now() == Task(Cancelled, "Task cancelled", old(artifacts), true)
    {
      if !Terminal(state) {
        cancellationRequested, state, statusMessage := true, Cancelled, "Task cancelled";
      }
    }

    /** The part of `_resolve_task_record` that takes an existing task again. */
    method Resubmit()
      modifies this
      ensures Now() == Meddle(old(Now()), Resubmission) == Task(Submitted, "", [], false)
    {
      state, statusMessage, artifacts, cancellationRequested := Submitted, "", [], false;
    }

    // One write of another request.
    method Undergo(m: Meddling)
      modifies this
      ensures Now() == Meddle(old(Now()), m)
    {
      match m
      case CancelRequest => Cancel();
      case Resubmission => Resubmit();
      case OtherBegins => state := Working;
      case OtherFails(message) => state, statusMessage := Failed, message;
      case OtherCompletes(text) => state, artifacts := Completed, [text];
      case OtherStops(texts) => artifacts := texts;
    }

    method Suffer(meddlings: seq<Meddling>)
      modifies this
      ensures Now() == Meddled(old(Now()), meddlings)
    {
      for i := 0 to |meddlings|
        invariant Meddled(Now(), meddlings[i..]) == Meddled(old(Now()), meddlings)
      {
        assert meddlings[i..][1..] == meddlings[i + 1..];
        Undergo(meddlings[i]);
      }
    }

    /** The cancellation branch, at a loop head or after the loop: the pending text goes out flagged. */
    method FinishCancelled(events: seq<Event>, pending: Option<string>, gap: seq<Meddling>, ghost turns: seq<Turn>)
      returns (all: seq<Event>)
      requires OneBehind(events, pending, turns)
      modifies this
      ensures all == [Status(Working, false)] + Artifacts(WasCancelled, turns) + [Status(state, true)]
      ensures
        var chunks := Chunks(turns);
        Now() == if chunks == [] then old(Now()).(artifacts := [])
                 else Meddled(old(Now()).(artifacts := [chunks[|chunks| - 1]]), gap)
    {
      hide Chunks;
      all := events;
      if pending.Some? {
        FlagTheLast(Chunks(turns));
        artifacts := [pending.value];
        all := all + [Artifact(pending.value, true)];
        Suffer(gap);
      } else {
        artifacts := [];
      }
      all := all + [Status(state, true)];
    }

    /** A chunk pushes out the one before it. */
    static method Push(events: seq<Event>, pending: Option<string>, chunk: Option<string>, ghost turns: seq<Turn>)
      returns (all: seq<Event>, next: Option<string>)
      requires turns != [] && turns[|turns| - 1].input.Item? && turns[|turns| - 1].input.chunk == chunk
      requires OneBehind(events, pending, turns[..|turns| - 1])
      ensures OneBehind(all, next, turns)
    {
      all, next := events, pending;
      if chunk.Some? {
        if pending.Some? {
          FlagTheLast(Chunks(turns[..|turns| - 1]));
          all := all + [Artifact(pending.value, false)];
        }
        next := chunk;
      }
    }

    /** The completion branch. */
    method FinishCompleted(events: seq<Event>, pending: Option<string>, finalText: string, gap: seq<Meddling>,
                           ghost turns: seq<Turn>)
      returns (all: seq<Event>)
      requires OneBehind(events, pending, turns) && NonEmptyChunks(turns) && finalText == FinalText(turns)
      modifies this
      ensures all == [Status(Working, false)] + Artifacts(HasCompleted, turns) + [Status(state, true)]
      ensures state == Completed && artifacts == [finalText]
    {
      hide Chunks, FinalText;
      all := events;
      ChunksAreNonEmpty(turns);
      assert pending.Some? ==> pending.value in Chunks(turns);
      assert Unflagged([]) == [];
      var terminalChunkText := if pending.Some? && pending.value != "" then pending.value else finalText;
      if terminalChunkText != "" {
        if pending.Some? { FlagTheLast(Chunks(turns)); }
        all := all + [Artifact(terminalChunkText, true)];
        assert pending.None? ==> LastFlagged([finalText]) == [Artifact(finalText, true)];
        Suffer(gap);
      }
      state := Completed;
      artifacts := [finalText];
      all := all + [Status(state, true)];
    }

    /** `_event_iter`, consumed until it ends or the script runs out. */
    method Stream(script: Script) returns (events: seq<Event>, outcome: Outcome, ghost k: nat)
      requires NonEmptyChunks(script.turns)
      modifies this
      ensures Ends(old(Now()).(state := Working), script, outcome, k)
      // Exactly one final status is emitted once the stream has ended, and it is the last event.
      ensures events == Emitted(outcome, script.turns[..k], state)
      ensures outcome.HasFailed? ==> state == Failed && statusMessage == script.turns[k].input.message
      ensures outcome.HasCompleted? ==> state == Completed && artifacts == [FinalText(script.turns[..k])]
      ensures outcome.WasCancelled? ==> Now() == CancelledTask(old(Now()).(state := Working), script, k)
    {
      hide Meddled, Chunks, FinalText;
      var turns := script.turns;
      state := Working;
      ghost var start := Now();
      events := [Status(state, false)];
      var finalExtracted: Option<string> := None;
      var pending: Option<string> := None;
      NothingYet();
      var i := 0;
      while i < |turns|
        invariant i <= |turns| && Now() == Seen(start, turns, i)
        invariant OneBehind(events, pending, turns[..i])
        invariant FinalText(turns[..i]) == if finalExtracted.None? then NO_OUTPUT else finalExtracted.value
        invariant forall j | 0 <= j < i :: !Leaves(start, turns, j)
      {
        k := i;
        Suffer(turns[i].before);
        if cancellationRequested {
          events := FinishCancelled(events, pending, script.gap, turns[..i]);
          return events, WasCancelled, k;
        }
        var input := turns[i].input;
        if input.Error? {
          state, statusMessage := Failed, input.message;
          return events + [Status(state, true)], HasFailed, k;
        }
        if input.Done? {
          Suffer(script.closing);
          if cancellationRequested {
            events := FinishCancelled(events, pending, script.gap, turns[..i]);
            return events, WasCancelled, k;
          }
          var finalText := if finalExtracted.None? then NO_OUTPUT else finalExtracted.value;
          events := FinishCompleted(events, pending, finalText, script.gap, turns[..i]);
          return events, HasCompleted, k;
        }
        OneMoreTurn(turns, i);
        if input.Item? {
          finalExtracted := Some(input.output);
          events, pending := Push(events, pending, input.chunk, turns[..i + 1]);
        }
        i := i + 1;
      }
      k := i;
      assert turns[..i] == turns;
      outcome := StillRunning;
    }
  }

  lemma NothingYet()
    ensures Chunks([]) == [] && FinalText([]) == NO_OUTPUT
  {}

  lemma OneMoreTurn(turns: seq<Turn>, i: nat)
    requires i < |turns|
    ensures turns[..i + 1][..i] == turns[..i]
    ensures turns[i].input.Timeout? ==>
      Chunks(turns[..i + 1]) == Chunks(turns[..i]) && FinalText(turns[..i + 1]) == FinalText(turns[..i])
    ensures turns[i].input.Item? ==> FinalText(turns[..i + 1]) == turns[i].input.output
  {
    assert turns[..i + 1][..i] == turns[..i];
  }

  /** A stream that has ended emitted exactly one final status, as its last event; before that, and
      while it runs, there is none. */
  lemma OneFinalStatus(o: Outcome, turns: seq<Turn>, state: TaskState)
    ensures forall i | 0 <= i < |Emitted(o, turns, state)| ::
      Emitted(o, turns, state)[i] == Status(state, true) || !IsFinal(Emitted(o, turns, state)[i])
    ensures forall i | 0 <= i < |Emitted(o, turns, state)| ::
      IsFinal(Emitted(o, turns, state)[i]) <==> !o.StillRunning? && i == |Emitted(o, turns, state)| - 1
  {
    assert forall e <- Artifacts(o, turns) :: e.Artifact?;
  }

  predicate IsFinal(e: Event) { e.Status? && e.final }

  // ---- What is delivered

  /** The chunks are those of the items, in order. */
  lemma {:induction false} ChunksAppend(a: seq<Turn>, b: seq<Turn>)
    ensures Chunks(a + b) == Chunks(a) + Chunks(b)
    decreases |b|
  {
    if b == [] {
      assert a + b == a;
    } else {
      var front := b[..|b| - 1];
      assert (a + b)[..|a + b| - 1] == a + front;
      ChunksAppend(a, front);
    }
  }

  /** The final text is the output of the last item. */
  lemma {:induction false} FinalTextIs(turns: seq<Turn>, k: nat)
    requires k < |turns| && turns[k].input.Item? && forall i | k < i < |turns| :: !turns[i].input.Item?
    ensures FinalText(turns) == turns[k].input.output
  {
    if k < |turns| - 1 { FinalTextIs(turns[..|turns| - 1], k); }
  }

  lemma OneTurn(t: Turn)
    ensures t.input.Item? && t.input.chunk.Some? ==> Chunks([t]) == [t.input.chunk.value]
    ensures !(t.input.Item? && t.input.chunk.Some?) ==> Chunks([t]) == []
  {
    assert [t][..0] == [];
  }

  // The texts of the artifacts among the events.
  function Texts(events: seq<Event>): seq<string> {
    if events == [] then []
    else (if events[0].Artifact? then [events[0].text] else []) + Texts(events[1..])
  }

  lemma {:induction false} TextsAppend(a: seq<Event>, b: seq<Event>)
    ensures Texts(a + b) == Texts(a) + Texts(b)
    decreases |a|
  {
    if a == [] {
      assert a + b == b;
    } else {
      assert (a + b)[1..] == a[1..] + b;
      TextsAppend(a[1..], b);
    }
  }

  lemma {:induction false} TextsOf(events: seq<Event>, texts: seq<string>)
    requires |events| == |texts| && forall i | 0 <= i < |texts| :: events[i].Artifact? && events[i].text == texts[i]
    ensures Texts(events) == texts
  {
    if events != [] { TextsOf(events[1..], texts[1..]); }
  }

  /** Each chunk is delivered once, in order: all of them by a stream that completes or is cancelled, all but
      the last by one that fails or is still running. Without chunks a completed stream delivers the final
      text, unless it is empty. */
  lemma DeliversEveryChunk(o: Outcome, turns: seq<Turn>, state: TaskState)
    ensures
      var chunks, texts := Chunks(turns), Texts(Emitted(o, turns, state));
      && (o.WasCancelled? ==> texts == chunks)
      && (o.HasCompleted? ==> texts == if chunks == [] && FinalText(turns) != "" then [FinalText(turns)] else chunks)
      && ((o.HasFailed? || o.StillRunning?) ==> texts == if chunks == [] then [] else chunks[..|chunks| - 1])
  {
    var chunks, middle := Chunks(turns), Artifacts(o, turns);
    var tail: seq<Event> := if o.StillRunning? then [] else [Status(state, true)];
    hide Chunks, FinalText;
    TextsAppend([Status(Working, false)] + middle, tail);
    TextsAppend([Status(Working, false)], middle);
    assert Texts([Status(Working, false)]) == [] && Texts(tail) == [];
    match o {
      case WasCancelled => TextsOf(middle, chunks);
      case HasCompleted => TextsOf(middle, if chunks == [] && FinalText(turns) != "" then [FinalText(turns)] else chunks);
      case _ => TextsOf(middle, if chunks == [] then [] else chunks[..|chunks| - 1]);
    }
    hide Artifacts, Texts;
  }

  /** An artifact is flagged exactly when it is the last one of a stream that completed or was cancelled, just
      before the final status. */
  lemma OnlyTheLastIsFlagged(o: Outcome, turns: seq<Turn>, state: TaskState)
    ensures
      var events := Emitted(o, turns, state);
      forall i | 0 <= i < |events| && events[i].Artifact? ::
        events[i].lastChunk <==> (o.WasCancelled? || o.HasCompleted?) && i == |events| - 2
  {
    hide Chunks, FinalText;
    var middle := Artifacts(o, turns);
    assert forall i | 0 <= i < |middle| ::
      middle[i].Artifact? && (middle[i].lastChunk <==> (o.WasCancelled? || o.HasCompleted?) && i == |middle| - 1);
    hide Artifacts;
    var events := Emitted(o, turns, state);
    assert forall i | 0 <= i < |middle| :: events[i + 1] == middle[i];
  }

  /** When other requests only cancel, they are heard: the stream ends as cancelled exactly when one of them
      came before the turn in which it ends or, if that is the end of the graph, before it settled. */
  lemma CancelIsHeard(task: Task, script: Script, k: nat)
    requires task.state.Working? && !task.cancellationRequested
    requires k < |script.turns| && (forall i | 0 <= i < k :: !Leaves(task, script.turns, i)) && Leaves(task, script.turns, k)
    requires forall m <- script.closing :: m.CancelRequest?
    requires forall i | 0 <= i <= k :: forall m <- script.turns[i].before :: m.CancelRequest?
    ensures
      var o, turn := OutcomeOf(task, script, k), script.turns[k];
      && (forall i | 0 <= i < k :: script.turns[i].before == [])
      && (o.WasCancelled? <==> turn.before != [] || (turn.input.Done? && script.closing != []))
      && (o.HasFailed? <==> turn.before == [] && turn.input.Error?)
      && (o.HasCompleted? <==> turn.before == [] && turn.input.Done? && script.closing == [])
  {
    NothingHeard(task, script.turns, k);
    CancelledExactly(task, script.turns[k].before);
    CancelledExactly(task, script.closing);
  }

  lemma {:induction false} NothingHeard(task: Task, turns: seq<Turn>, k: nat)
    requires task.state.Working? && !task.cancellationRequested && k <= |turns|
    requires forall i | 0 <= i < k :: !Leaves(task, turns, i)
    requires forall i | 0 <= i < k :: forall m <- turns[i].before :: m.CancelRequest?
    ensures Seen(task, turns, k) == task && forall i | 0 <= i < k :: turns[i].before == []
  {
    if k > 0 {
      NothingHeard(task, turns, k - 1);
      CancelledExactly(task, turns[k - 1].before);
      assert !Leaves(task, turns, k - 1);
    }
  }

  lemma CancelledExactly(task: Task, meddlings: seq<Meddling>)
    requires task.state.Working? && !task.cancellationRequested && forall m <- meddlings :: m.CancelRequest?
    ensures meddlings == [] ==> Meddled(task, meddlings) == task
    ensures meddlings != [] ==> Meddled(task, meddlings).cancellationRequested
  {
    if meddlings != [] { OnlyCancelled(Meddle(task, meddlings[0]), meddlings[1..]); }
  }

  /** When other requests only cancel, a cancelled stream reports the cancelled state. */
  lemma CancelledStreamSaysSo(task: Task, script: Script, k: nat)
    requires task.state.Working? && !task.cancellationRequested
    requires k < |script.turns| && OutcomeOf(task, script, k).WasCancelled?
    requires forall m <- script.closing + script.gap :: m.CancelRequest?
    requires forall i | 0 <= i <= k :: forall m <- script.turns[i].before :: m.CancelRequest?
    ensures CancelledTask(task, script, k).state == Cancelled
  {
    SeenConsistent(task, script.turns, k + 1);
    var seen := Seen(task, script.turns, k + 1);
    assert forall m <- script.closing :: m in script.closing + script.gap;
    assert forall m <- script.gap :: m in script.closing + script.gap;
    OnlyCancelled(seen, script.closing);
    var found := if seen.cancellationRequested then seen else Meddled(seen, script.closing);
    var chunks := Chunks(script.turns[..k]);
    if chunks != [] { OnlyCancelled(found.(artifacts := [chunks[|chunks| - 1]]), script.gap); }
  }

  predicate Consistent(task: Task) {
    if task.cancellationRequested then task.state.Cancelled? else task.state.Working?
  }

  lemma {:induction false} OnlyCancelled(task: Task, meddlings: seq<Meddling>)
    requires Consistent(task) && forall m <- meddlings :: m.CancelRequest?
    ensures Consistent(Meddled(task, meddlings))
    ensures task.cancellationRequested ==> Meddled(task, meddlings).cancellationRequested
    decreases |meddlings|
  {
    if meddlings != [] {
      OnlyCancelled(Meddle(task, meddlings[0]), meddlings[1..]);
    }
  }

  lemma {:induction false} SeenConsistent(task: Task, turns: seq<Turn>, k: nat)
    requires k <= |turns| && Consistent(task)
    requires forall i | 0 <= i < k :: forall m <- turns[i].before :: m.CancelRequest?
    ensures Consistent(Seen(task, turns, k))
  {
    if k > 0 {
      SeenConsistent(task, turns, k - 1);
      OnlyCancelled(Seen(task, turns, k - 1), turns[k - 1].before);
    }
  }
}
