/**
  `ForwardingSignalGuard` with a signal allowed between any two statements, those of the handler
  included. The main program is suspended while handler frames are on the stack; an exception
  raised by a handler unwinds the whole stack into the main program. Signals are numbered in order
  of arrival, so "the first signal" is signal 0.
*/
module SignalGuard {
  import opened Wrappers

  datatype GuardState = Acquiring | Waiting | Delivering | Cleanup | Closed

  // Where the main program stands, from the end of `__enter__` to the end of `__exit__`.
  datatype Main =
    | Starting                        // the child is being started
    | AttachChecked                   // past the first test of `attach`
    | ChildSet
    | WaitingSet
    | PendingRead(noted: Option<nat>)
    | DeliveringSet(seen: nat)
    | PendingCleared(seen: nat)       // about to raise
    | Attached                        // `attach` returned; the driver waits for the child
    | CleanupChecked                  // past the test of `begin_cleanup`
    | Thrown                          // a _ForwardedSignal reached the driver
    | Cleaning
    | Left

  datatype HandlerPc =
    | Entered          // before the first test
    | SawAcquiring     // before the test of the pending signal
    | NothingPending   // before storing the signal
    | NotAcquiring     // before the second test
    | SawWaiting       // before setting "delivering"
    | SetDelivering    // before the test of the pending signal
    | TookPending      // before clearing the pending signal
    | Raising
    | NotWaiting       // before the third test
    | Forwarding       // before forwarding to the child

  datatype Frame = Frame(signal: nat, pc: HandlerPc, carried: nat)

  /** `received` counts arrivals. `winner`, `overtaken`, `owed`, `raised` and `forwarded` are history:
      the first signal a handler committed to, whether signal 0 was interrupted before it committed,
      the signals that arrived once the guard was delivering or cleaning up with a child, and what
      was raised and forwarded. */
  datatype Guard = Guard(
    state: GuardState, pending: Option<nat>, child: bool, main: Main, frames: seq<Frame>,
    received: nat, winner: Option<nat>, overtaken: bool, owed: set<nat>, raised: seq<nat>, forwarded: set<nat>)

  const Fresh := Guard(Acquiring, None, false, Starting, [], 0, None, false, {}, [], {})

  datatype Step = Arrive | Handle | Proceed(ok: bool)

  predicate Uncommitted(pc: HandlerPc) {
    pc.Entered? || pc.SawAcquiring? || pc.NotAcquiring? || pc.SawWaiting?
  }

  function Top(g: Guard): Frame
    requires g.frames != []
  {
    g.frames[|g.frames| - 1]
  }

  function Replace(g: Guard, f: Frame): seq<Frame>
    requires g.frames != []
  {
    g.frames[|g.frames| - 1 := f]
  }

  function Popped(g: Guard): seq<Frame>
    requires g.frames != []
  {
    g.frames[..|g.frames| - 1]
  }

  /** The handlers are gone once the program has left the guard. */
  function ArriveStep(g: Guard): Guard {
    if g.main.Left? then g
    else g.(frames := g.frames + [Frame(g.received, Entered, g.received)],
       received := g.received + 1,
       overtaken := g.overtaken || (g.frames != [] && g.frames[0].signal == 0 && g.winner.None? && Uncommitted(g.frames[0].pc)),
       owed := if (g.state.Delivering? || g.state.Cleanup?) && g.child then g.owed + {g.received} else g.owed)
  }

  function Commit(g: Guard, signal: nat): Option<nat> { if g.winner.None? then Some(signal) else g.winner }

  function HandleStep(g: Guard): Guard
    requires g.frames != []
  {
    var f := Top(g);
    match f.pc
    case Entered => g.(frames := Replace(g, f.(pc := if g.state.Acquiring? then SawAcquiring else NotAcquiring)))
    case SawAcquiring =>
      if g.pending.None? then g.(frames := Replace(g, f.(pc := NothingPending)), winner := Commit(g, f.signal))
      else g.(frames := Popped(g))
    case NothingPending => g.(frames := Popped(g), pending := Some(f.signal))
    case NotAcquiring => g.(frames := Replace(g, f.(pc := if g.state.Waiting? then SawWaiting else NotWaiting)))
    case SawWaiting =>
      g.(frames := Replace(g, f.(pc := SetDelivering)), state := Delivering, winner := Commit(g, f.signal))
    case SetDelivering =>
      if g.pending.Some? then g.(frames := Replace(g, f.(pc := TookPending, carried := g.pending.value)))
      else g.(frames := Replace(g, f.(pc := Raising)))
    case TookPending => g.(frames := Replace(g, f.(pc := Raising)), pending := None)
    case Raising => g.(frames := [], main := Thrown, raised := g.raised + [f.carried])
    case NotWaiting =>
      if (g.state.Delivering? || g.state.Cleanup?) && g.child then g.(frames := Replace(g, f.(pc := Forwarding)))
      else g.(frames := Popped(g))
    case Forwarding => g.(frames := Popped(g), forwarded := g.forwarded + {f.signal})
  }

  /** One statement of the main program; `ok` chooses where it can go either way. */
  function ProceedStep(g: Guard, ok: bool): Guard
    requires g.frames == []
  {
    match g.main
    case Starting => if ok && g.state.Acquiring? && !g.child then g.(main := AttachChecked) else g.(main := Cleaning, state := Cleanup)
    case AttachChecked => g.(main := ChildSet, child := true)
    case ChildSet => g.(main := WaitingSet, state := Waiting)
    case WaitingSet => g.(main := PendingRead(g.pending))
    case PendingRead(noted) => if noted.None? then g.(main := Attached) else g.(main := DeliveringSet(noted.value), state := Delivering)
    case DeliveringSet(seen) => g.(main := PendingCleared(seen), pending := None)
    case PendingCleared(seen) => g.(main := Thrown, raised := g.raised + [seen])
    case Attached => g.(main := CleanupChecked)
    case CleanupChecked => g.(main := Cleaning, state := Cleanup)
    case Thrown => g.(main := Cleaning, state := Cleanup)
    case Cleaning => g.(main := Left, state := Closed)
    case Left => g
  }

  function Next(g: Guard, s: Step): Guard {
    match s
    case Arrive => ArriveStep(g)
    case Handle => if g.frames == [] then g else HandleStep(g)
    case Proceed(ok) => if g.frames == [] then ProceedStep(g, ok) else g
  }

  function Run(g: Guard, steps: seq<Step>): Guard
    decreases |steps|
  {
    if steps == [] then g else Run(Next(g, steps[0]), steps[1..])
  }

  // ---------------------------------------------------------------- the invariant

  predicate Storing(pc: HandlerPc) { pc.Entered? || pc.SawAcquiring? || pc.NothingPending? }

  predicate Testing(pc: HandlerPc) { pc.Entered? || pc.NotAcquiring? || pc.SawWaiting? }

  predicate Passing(pc: HandlerPc) { pc.Entered? || pc.NotAcquiring? || pc.NotWaiting? || pc.Forwarding? }

  predicate All(frames: seq<Frame>, p: HandlerPc -> bool) { forall k | 0 <= k < |frames| :: p(frames[k].pc) }

  /** No signal has been committed to: every signal received is still on the stack, untouched. */
  predicate Undecided(g: Guard) {
    && g.pending.None? && |g.frames| == g.received
    && (forall k | 0 <= k < |g.frames| :: g.frames[k].signal == k && Uncommitted(g.frames[k].pc))
    && (g.overtaken <==> g.received >= 2)
  }

  /** Signal `w` was committed to: it is pending, or the lowest frame about to store it will overwrite
      whatever the frames above it store. */
  predicate Stored(g: Guard, w: nat) {
    || (g.pending == Some(w) && forall k | 0 <= k < |g.frames| :: !g.frames[k].pc.NothingPending?)
    || exists m | 0 <= m < |g.frames| :: LowestStore(g.frames, m, w)
  }

  predicate LowestStore(frames: seq<Frame>, m: nat, w: nat) {
    && m < |frames| && frames[m].signal == w && frames[m].pc.NothingPending?
    && forall k | 0 <= k < m :: !frames[k].pc.NothingPending?
  }

  /** Frame `m` has set "delivering" and is going to raise the winner; the frames below it are
      abandoned when it does, and those above it only forward. */
  predicate WillRaise(g: Guard, m: nat) {
    && m < |g.frames| && g.winner.Some?
    && (var f := g.frames[m];
        || (f.pc.SetDelivering? && f.carried == f.signal && g.winner.value == (if g.pending.Some? then g.pending.value else f.signal))
        || ((f.pc.TookPending? || f.pc.Raising?) && f.carried == g.winner.value))
    && (forall k | m < k < |g.frames| :: Passing(g.frames[k].pc))
    && (forall k | 0 <= k <= m :: g.frames[k].signal !in g.owed)
  }

  predicate Main1(g: Guard) {
    match g.state
    case Acquiring => g.main.Starting? || g.main.AttachChecked? || g.main.ChildSet?
    case Waiting => g.main.WaitingSet? || g.main.PendingRead? || g.main.Attached? || g.main.CleanupChecked?
    case Delivering => !g.main.Cleaning? && !g.main.Left?
    case Cleanup => g.main.Cleaning?
    case Closed => g.main.Left?
  }

  predicate StateInv(g: Guard) {
    match g.state
    case Acquiring =>
      && All(g.frames, Storing) && g.raised == []
      && (g.child <==> g.main.ChildSet?)
      && (if g.winner.None? then Undecided(g) else Stored(g, g.winner.value))
    case Waiting =>
      && All(g.frames, Testing) && g.raised == [] && g.child
      && (if g.winner.None? then Undecided(g) else g.pending == g.winner)
      && (g.main.PendingRead? ==> g.main.noted == g.pending)
      && (g.main.Attached? || g.main.CleanupChecked? ==> g.pending.None?)
    case Delivering =>
      && g.child && g.winner.Some?
      && ((g.raised == [] && g.main.DeliveringSet? && g.main.seen == g.winner.value && All(g.frames, Passing))
       || (g.raised == [] && g.main.PendingCleared? && g.main.seen == g.winner.value && All(g.frames, Passing))
       || (g.raised == [g.winner.value] && g.main.Thrown? && All(g.frames, Passing))
       || (g.raised == [] && exists m | 0 <= m < |g.frames| :: WillRaise(g, m)))
    case Cleanup => All(g.frames, Passing) && (g.raised == [] || (g.child && g.winner.Some? && g.raised == [g.winner.value]))
    case Closed => g.frames == [] && (g.raised == [] || (g.winner.Some? && g.raised == [g.winner.value]))
  }

  predicate OnStack(frames: seq<Frame>, s: nat) { exists k | 0 <= k < |frames| :: frames[k].signal == s }

  /** A signal owed to the child is forwarded, or its handler is still running. */
  predicate Owed(g: Guard) {
    && (g.state.Acquiring? || g.state.Waiting? || !g.child ==> g.owed == {})
    && (forall s | s in g.owed :: s < g.received && (s in g.forwarded || OnStack(g.frames, s)))
    && (forall k | 0 <= k < |g.frames| :: FrameOk(g.frames[k], g.received))
  }

  predicate FrameOk(f: Frame, received: nat) {
    f.signal < received && (f.pc.TookPending? || f.pc.Raising? || f.carried == f.signal)
  }

  predicate Decided(g: Guard) { g.winner.Some? ==> (g.winner.value == 0 <==> !g.overtaken) }

  predicate Inv(g: Guard) { Main1(g) && StateInv(g) && Owed(g) && Decided(g) }

  // ---------------------------------------------------------------- every statement keeps it

  lemma ProceedAcquiring(g: Guard, ok: bool)
    requires Inv(g) && g.frames == [] && g.state.Acquiring?
    ensures Inv(ProceedStep(g, ok))
  {
  }

  lemma ProceedWaiting(g: Guard, ok: bool)
    requires Inv(g) && g.frames == [] && g.state.Waiting?
    ensures Inv(ProceedStep(g, ok))
  {
  }

  lemma ProceedDelivering(g: Guard, ok: bool)
    requires Inv(g) && g.frames == [] && g.state.Delivering?
    ensures Inv(ProceedStep(g, ok))
  {
  }

  lemma ProceedEnding(g: Guard, ok: bool)
    requires Inv(g) && g.frames == [] && (g.state.Cleanup? || g.state.Closed?)
    ensures Inv(ProceedStep(g, ok))
  {
  }

  lemma ProceedKeeps(g: Guard, ok: bool)
    requires Inv(g) && g.frames == []
    ensures Inv(ProceedStep(g, ok))
  {
    match g.state
    case Acquiring => ProceedAcquiring(g, ok);
    case Waiting => ProceedWaiting(g, ok);
    case Delivering => ProceedDelivering(g, ok);
    case _ => ProceedEnding(g, ok);
  }

  lemma StoredArrives(g: Guard, w: nat)
    requires Stored(g, w)
    ensures Stored(ArriveStep(g), w)
  {
    var r := ArriveStep(g);
    if exists m | 0 <= m < |g.frames| :: LowestStore(g.frames, m, w) {
      var m :| 0 <= m < |g.frames| && LowestStore(g.frames, m, w);
      assert LowestStore(r.frames, m, w);
    }
  }

  lemma ArriveKeeps(g: Guard)
    requires Inv(g)
    ensures Inv(ArriveStep(g))
  {
    var r := ArriveStep(g);
    if !g.main.Left? {
      forall s | s in r.owed ensures s in r.forwarded || OnStack(r.frames, s) {
        if s in g.owed && s !in g.forwarded {
          var k :| 0 <= k < |g.frames| && g.frames[k].signal == s;
          assert r.frames[k].signal == s;
        } else if s == g.received {
          assert r.frames[|g.frames|].signal == s;
        }
      }
      if g.state.Acquiring? && g.winner.Some? { StoredArrives(g, g.winner.value); }
      if g.state.Delivering? && exists m | 0 <= m < |g.frames| :: WillRaise(g, m) {
        var m :| 0 <= m < |g.frames| && WillRaise(g, m);
        assert WillRaise(r, m);
      }
    }
  }

  /** Only the top frame changed: in place, or popped with its signal forwarded or not owed. */
  lemma OwedKeeps(g: Guard, r: Guard)
    requires Owed(g) && g.frames != []
    requires r.owed == g.owed && r.received == g.received && r.child == g.child && g.forwarded <= r.forwarded
    requires r.state == g.state || r.state.Delivering?
    requires (r.frames == Popped(g) && (Top(g).signal !in g.owed || Top(g).signal in r.forwarded))
          || (|r.frames| == |g.frames| && r.frames == Replace(g, Top(r)) && Top(r).signal == Top(g).signal && FrameOk(Top(r), g.received))
    ensures Owed(r)
  {
    forall s | s in r.owed ensures s in r.forwarded || OnStack(r.frames, s) {
      if s !in g.forwarded {
        var k :| 0 <= k < |g.frames| && g.frames[k].signal == s;
        if k < |r.frames| { assert r.frames[k].signal == s; }
      }
    }
  }

  lemma HandleUndecided(g: Guard)
    requires Inv(g) && g.frames != [] && g.state.Acquiring? && g.winner.None?
    ensures Inv(HandleStep(g))
  {
    var r := HandleStep(g);
    OwedKeeps(g, r);
    if r.winner.Some? {
      assert LowestStore(r.frames, |g.frames| - 1, r.winner.value);
    }
  }

  lemma StoredKeeps(g: Guard, w: nat)
    requires All(g.frames, Storing) && g.frames != [] && g.state.Acquiring? && Stored(g, w)
    ensures Stored(HandleStep(g), w) && All(HandleStep(g).frames, Storing)
  {
    var r := HandleStep(g);
    if exists m | 0 <= m < |g.frames| :: LowestStore(g.frames, m, w) {
      var m :| 0 <= m < |g.frames| && LowestStore(g.frames, m, w);
      if m < |r.frames| && r.frames[m] == g.frames[m] { assert LowestStore(r.frames, m, w); }
    }
  }

  lemma HandleDecided(g: Guard)
    requires Inv(g) && g.frames != [] && g.state.Acquiring? && g.winner.Some?
    ensures Inv(HandleStep(g))
  {
    OwedKeeps(g, HandleStep(g));
    StoredKeeps(g, g.winner.value);
    hide Stored;
  }

  lemma HandleWaiting(g: Guard)
    requires Inv(g) && g.frames != [] && g.state.Waiting?
    ensures Inv(HandleStep(g))
  {
    var r := HandleStep(g);
    OwedKeeps(g, r);
    if r.state.Delivering? { assert WillRaise(r, |g.frames| - 1); }
  }

  lemma HandlePassing(g: Guard)
    requires Inv(g) && g.frames != [] && !g.state.Acquiring? && !g.state.Waiting? && All(g.frames, Passing)
    ensures Inv(HandleStep(g))
  {
    OwedKeeps(g, HandleStep(g));
  }

  lemma HandleRaising(g: Guard, m: nat)
    requires Inv(g) && g.state.Delivering? && g.raised == [] && WillRaise(g, m)
    ensures Inv(HandleStep(g))
  {
    if m < |g.frames| - 1 {
      HandleAboveRaiser(g, m);
    } else if Top(g).pc.Raising? {
      HandleRaises(g, m);
    } else {
      HandleBeforeRaise(g, m);
    }
  }

  lemma HandleRaises(g: Guard, m: nat)
    requires Inv(g) && g.state.Delivering? && g.raised == [] && WillRaise(g, m) && Top(g).pc.Raising?
    ensures Inv(HandleStep(g))
  {
    var r := HandleStep(g);
    assert m == |g.frames| - 1;
    forall s | s in r.owed ensures s in r.forwarded { assert !OnStack(g.frames, s); }
  }

  lemma HandleBeforeRaise(g: Guard, m: nat)
    requires Inv(g) && g.state.Delivering? && g.raised == [] && WillRaise(g, m) && m == |g.frames| - 1 && !Top(g).pc.Raising?
    ensures Inv(HandleStep(g))
  {
    var r := HandleStep(g);
    OwedKeeps(g, r);
    assert WillRaise(r, m);
    hide Owed, FrameOk;
  }

  // Frame `m` waits below the top one, which only forwards.
  lemma HandleAboveRaiser(g: Guard, m: nat)
    requires Inv(g) && g.state.Delivering? && g.raised == [] && WillRaise(g, m) && m < |g.frames| - 1
    ensures Inv(HandleStep(g))
  {
    var r := HandleStep(g);
    OwedKeeps(g, r);
    RaiserStays(g, m);
    hide Owed, FrameOk, WillRaise;
  }

  lemma RaiserStays(g: Guard, m: nat)
    requires g.frames != [] && g.state.Delivering? && WillRaise(g, m) && m < |g.frames| - 1
    ensures WillRaise(HandleStep(g), m)
  {
    var r := HandleStep(g);
    assert forall k | 0 <= k < |r.frames| && k < |g.frames| - 1 :: r.frames[k] == g.frames[k];
  }

  lemma NextKeeps(g: Guard, s: Step)
    requires Inv(g)
    ensures Inv(Next(g, s))
  {
    if s.Arrive? {
      ArriveKeeps(g);
    } else if s.Proceed? {
      if g.frames == [] { ProceedKeeps(g, s.ok); }
    } else if g.frames != [] {
      if g.state.Acquiring? {
        if g.winner.None? { HandleUndecided(g); } else { HandleDecided(g); }
      } else if g.state.Waiting? {
        HandleWaiting(g);
      } else if All(g.frames, Passing) {
        HandlePassing(g);
      } else {
        var m :| 0 <= m < |g.frames| && WillRaise(g, m);
        HandleRaising(g, m);
      }
    }
  }

  lemma {:induction false} RunKeeps(g: Guard, steps: seq<Step>)
    requires Inv(g)
    ensures Inv(Run(g, steps))
    decreases |steps|
  {
    if steps != [] {
      NextKeeps(g, steps[0]);
      RunKeeps(Next(g, steps[0]), steps[1..]);
    }
  }

  // ---------------------------------------------------------------- what becomes of each signal

  // Frame `k`, or one above it, is going to raise: frame `k` will never go on.
  predicate Doomed(frames: seq<Frame>, k: nat) {
    exists j | k <= j < |frames| :: frames[j].pc.SetDelivering? || frames[j].pc.TookPending? || frames[j].pc.Raising?
  }

  /** Beside the invariant: only signals owed to the child are forwarded, the winner is not one of them,
      and at the end the winner was raised if the child was attached. */
  predicate Fates(g: Guard) {
    && g.forwarded <= g.owed
    && (forall k | 0 <= k < |g.frames| && g.frames[k].pc.Forwarding? :: g.frames[k].signal in g.owed)
    && ((g.state.Delivering? || g.state.Cleanup?) && g.child ==>
          forall k | 0 <= k < |g.frames| :: g.frames[k].signal in g.owed || Doomed(g.frames, k))
    && (g.winner.Some? ==> g.winner.value < g.received && g.winner.value !in g.owed)
    && ((g.state.Cleanup? || g.state.Closed?) && g.child ==>
          if g.winner.None? then forall s | 0 <= s < g.received :: s in g.owed else g.raised == [g.winner.value])
    && ((g.state.Cleanup? || g.state.Closed?) && !g.child ==> g.raised == [] && g.owed == {})
  }

  lemma FatesArrive(g: Guard)
    requires Inv(g) && Fates(g)
    ensures Fates(ArriveStep(g))
  {
    var r := ArriveStep(g);
    forall k | 0 <= k < |g.frames| && Doomed(g.frames, k) && !g.main.Left? ensures Doomed(r.frames, k) {
      var j :| k <= j < |g.frames| && (g.frames[j].pc.SetDelivering? || g.frames[j].pc.TookPending? || g.frames[j].pc.Raising?);
      assert r.frames[j] == g.frames[j];
    }
  }

  lemma FatesProceed(g: Guard, ok: bool)
    requires Inv(g) && Fates(g) && g.frames == []
    ensures Fates(ProceedStep(g, ok))
  {
  }

  // A frame that is not going on is not the top one, unless that is going to raise.
  lemma DoomedBelow(g: Guard, k: nat)
    requires k < |g.frames| && Doomed(g.frames, k) && Passing(Top(g).pc)
    ensures k < |g.frames| - 1 && Doomed(Popped(g), k)
    ensures forall f :: Doomed(Replace(g, f), k)
  {
    var j :| k <= j < |g.frames| && (g.frames[j].pc.SetDelivering? || g.frames[j].pc.TookPending? || g.frames[j].pc.Raising?);
    assert Popped(g)[j] == g.frames[j];
    forall f ensures Doomed(Replace(g, f), k) { assert Replace(g, f)[j] == g.frames[j]; }
  }

  lemma FatesPassing(g: Guard)
    requires Inv(g) && Fates(g) && g.frames != [] && (g.state.Delivering? || g.state.Cleanup?) && Passing(Top(g).pc)
    ensures Fates(HandleStep(g))
  {
    forall k | 0 <= k < |g.frames| && Doomed(g.frames, k)
      ensures k < |g.frames| - 1 && Doomed(Popped(g), k) && forall f :: Doomed(Replace(g, f), k)
    {
      DoomedBelow(g, k);
    }
    hide Doomed, StateInv;
  }

  lemma FatesRaising(g: Guard)
    requires Inv(g) && Fates(g) && g.frames != [] && g.state.Delivering? && !Passing(Top(g).pc)
    requires Top(g).pc.SetDelivering? || Top(g).pc.TookPending? || Top(g).pc.Raising?
    ensures Fates(HandleStep(g))
  {
    var r := HandleStep(g);
    hide StateInv;
    forall k | 0 <= k < |r.frames| ensures Doomed(r.frames, k) {
      assert r.frames[|r.frames| - 1] == Top(r);
    }
  }

  lemma FatesWaiting(g: Guard)
    requires Inv(g) && Fates(g) && g.frames != [] && (g.state.Acquiring? || g.state.Waiting?)
    ensures Fates(HandleStep(g))
  {
    var r := HandleStep(g);
    if r.state.Delivering? {
      forall k | 0 <= k < |r.frames| ensures Doomed(r.frames, k) {
        assert r.frames[|r.frames| - 1].pc.SetDelivering?;
      }
    }
  }

  lemma FatesNext(g: Guard, s: Step)
    requires Inv(g) && Fates(g)
    ensures Fates(Next(g, s))
  {
    match s
    case Arrive => FatesArrive(g);
    case Proceed(ok) => if g.frames == [] { FatesProceed(g, ok); }
    case Handle =>
      if g.frames != [] {
        if g.state.Acquiring? || g.state.Waiting? {
          FatesWaiting(g);
        } else if Passing(Top(g).pc) {
          FatesPassing(g);
        } else {
          TopRaises(g);
          FatesRaising(g);
        }
      }
  }

  lemma TopRaises(g: Guard)
    requires Inv(g) && g.frames != [] && !g.state.Acquiring? && !g.state.Waiting? && !Passing(Top(g).pc)
    ensures g.state.Delivering? && (Top(g).pc.SetDelivering? || Top(g).pc.TookPending? || Top(g).pc.Raising?)
  {
  }

  lemma {:induction false} FatesKept(g: Guard, steps: seq<Step>)
    requires Inv(g) && Fates(g)
    ensures Fates(Run(g, steps))
    decreases |steps|
  {
    if steps != [] {
      NextKeeps(g, steps[0]);
      FatesNext(g, steps[0]);
      FatesKept(Next(g, steps[0]), steps[1..]);
    }
  }

  lemma FatesDecided(g: Guard)
    requires Inv(g) && Fates(g) && g.frames == [] && g.child && (g.main.Thrown? || g.main.Cleaning? || g.main.Left?)
    ensures if g.winner.None? then g.raised == [] && forall s | 0 <= s < g.received :: s in g.owed
            else g.raised == [g.winner.value] && g.winner.value < g.received && g.winner.value !in g.owed
  {
  }

  // ---------------------------------------------------------------- the theorems

  /** At most one signal is ever raised. It is the first signal received exactly when no second
      signal arrived while the handler of the first was still undecided. */
  lemma RaisesAtMostOnceAndFirst(steps: seq<Step>)
    ensures var g := Run(Fresh, steps);
      |g.raised| <= 1 && (g.raised != [] ==> (g.raised[0] == 0 <==> !g.overtaken))
  {
    RunKeeps(Fresh, steps);
  }

  /** The fate of every signal, once no handler is running. Those that arrived when the guard was
      delivering or cleaning up with a child are forwarded, and no others are. Of those that arrived
      before, one is raised and the rest are lost; without a child all are. A driver that waits for its
      child has lost none: it has received none. */
  lemma FateOfEverySignal(steps: seq<Step>)
    requires Run(Fresh, steps).frames == []
    ensures var g := Run(Fresh, steps);
      && g.forwarded == g.owed
      && (g.main.Attached? ==> g.received == 0)
      && (g.main.Thrown? || g.main.Cleaning? || g.main.Left? ==>
            if g.child then
              && (g.raised == [] <==> forall s | 0 <= s < g.received :: s in g.owed)
              && (g.raised != [] ==> g.raised[0] < g.received && g.raised[0] !in g.owed)
              && forall s | 0 <= s < g.received :: Lost(g, s) <==> s !in g.owed && g.raised != [s]
            else g.raised == [] && g.forwarded == {})
  {
    RunKeeps(Fresh, steps);
    FatesKept(Fresh, steps);
    var g := Run(Fresh, steps);
    forall s | s in g.owed ensures s in g.forwarded {
      assert !OnStack(g.frames, s);
    }
    if (g.main.Thrown? || g.main.Cleaning? || g.main.Left?) && g.child { FatesDecided(g); }
  }

  predicate Lost(g: Guard, s: nat) { s !in g.raised && s !in g.forwarded }

  /** After the raise, and until the guard is left, every arriving signal is owed to the child and
      nothing that follows raises again. */
  lemma LaterSignalsAreForwarded(steps: seq<Step>, more: seq<Step>)
    requires var g := Run(Fresh, steps); g.raised != [] && !g.main.Left?
    ensures var g := Run(Fresh, steps);
      && g.received in Next(g, Arrive).owed
      && Run(g, more).raised == g.raised
  {
    RunKeeps(Fresh, steps);
    RaisedStays(Run(Fresh, steps), more);
  }

  lemma {:induction false} RaisedStays(g: Guard, steps: seq<Step>)
    requires Inv(g) && g.raised != []
    ensures Run(g, steps).raised == g.raised
    decreases |steps|
  {
    if steps != [] {
      NextKeeps(g, steps[0]);
      var n := Next(g, steps[0]);
      assert n.raised == g.raised;
      RaisedStays(n, steps[1..]);
    }
  }

  // ---------------------------------------------------------------- the overtaken signal

  function Times(g: Guard, s: Step, n: nat): Guard
    decreases n
  {
    if n == 0 then g else Times(Next(g, s), s, n - 1)
  }

  lemma {:induction false} RunTimes(g: Guard, s: Step, n: nat)
    ensures Run(g, seq(n, _ => s)) == Times(g, s, n)
    decreases n
  {
    if n > 0 {
      assert seq(n, _ => s)[1..] == seq(n - 1, _ => s);
      RunTimes(Next(g, s), s, n - 1);
    }
  }

  /** `attach` without interruption. */
  lemma AttachRuns(g: Guard)
    requires g.frames == [] && g.main.Starting? && g.state.Acquiring? && !g.child
    ensures var w := g.(child := true, state := Waiting);
      && (g.pending.None? ==> Times(g, Proceed(true), 5) == w.(main := Attached))
      && (g.pending.Some? ==>
            Times(g, Proceed(true), 7) == w.(main := Thrown, state := Delivering, pending := None, raised := g.raised + [g.pending.value]))
  {
    var p := Proceed(true);
    var g1 := g.(main := AttachChecked);
    var g2 := g1.(main := ChildSet, child := true);
    var g3 := g2.(main := WaitingSet, state := Waiting);
    var g4 := g3.(main := PendingRead(g.pending));
    assert Next(g, p) == g1 && Next(g1, p) == g2 && Next(g2, p) == g3 && Next(g3, p) == g4;
    assert Times(g, p, 5) == Times(g1, p, 4) == Times(g2, p, 3) == Times(g3, p, 2) == Times(g4, p, 1);
    assert Times(g, p, 7) == Times(g1, p, 6) == Times(g2, p, 5) == Times(g3, p, 4) == Times(g4, p, 3);
    if g.pending.Some? {
      var g5 := g4.(main := DeliveringSet(g.pending.value), state := Delivering);
      assert Next(g4, p) == g5;
      assert Times(g4, p, 3) == Times(g5, p, 2) == Times(Next(g5, p), p, 1);
    }
  }

  /** Signal `k` arrives while the driver waits, and its handler runs above `below` without interruption. */
  lemma WaitingHandlerRuns(g: Guard)
    requires g.state.Waiting? && g.frames != [] && Top(g).pc.Entered? && g.pending.None? && Top(g).carried == Top(g).signal
    ensures Times(g, Handle, 5)
         == g.(frames := [], main := Thrown, state := Delivering, winner := Commit(g, Top(g).signal), raised := g.raised + [Top(g).signal])
  {
    var f := Top(g);
    var h1 := g.(frames := Replace(g, f.(pc := NotAcquiring)));
    var h2 := g.(frames := Replace(g, f.(pc := SawWaiting)));
    var h3 := g.(frames := Replace(g, f.(pc := SetDelivering)), state := Delivering, winner := Commit(g, f.signal));
    var h4 := h3.(frames := Replace(g, f.(pc := Raising)));
    assert HandleStep(g) == h1;
    assert HandleStep(h1) == h2;
    assert HandleStep(h2) == h3;
    assert HandleStep(h3) == h4;
    assert Times(g, Handle, 5) == Times(h1, Handle, 4) == Times(h2, Handle, 3) == Times(h3, Handle, 2) == Times(h4, Handle, 1);
  }

  lemma {:induction false} TimesIdle(g: Guard, n: nat)
    requires g.frames == []
    ensures Times(g, Handle, n) == g
    decreases n
  {
    if n > 0 { TimesIdle(g, n - 1); }
  }

  lemma {:induction false} TimesSplit(g: Guard, s: Step, m: nat, n: nat)
    ensures Times(g, s, m + n) == Times(Times(g, s, m), s, n)
    decreases m
  {
    if m > 0 { TimesSplit(Next(g, s), s, m - 1, n); }
  }

  lemma PendingHandlerRuns(g: Guard)
    requires g.state.Waiting? && g.frames != [] && Top(g).pc.Entered? && g.pending.Some?
    ensures Times(g, Handle, 6)
         == g.(frames := [], main := Thrown, state := Delivering, pending := None, winner := Commit(g, Top(g).signal),
               raised := g.raised + [g.pending.value])
  {
    var f := Top(g);
    var h1 := g.(frames := Replace(g, f.(pc := NotAcquiring)));
    var h2 := g.(frames := Replace(g, f.(pc := SawWaiting)));
    var h3 := g.(frames := Replace(g, f.(pc := SetDelivering)), state := Delivering, winner := Commit(g, f.signal));
    var h4 := h3.(frames := Replace(g, f.(pc := TookPending, carried := g.pending.value)));
    var h5 := h3.(frames := Replace(g, f.(pc := Raising, carried := g.pending.value)), pending := None);
    assert HandleStep(g) == h1;
    assert HandleStep(h1) == h2;
    assert HandleStep(h2) == h3;
    assert HandleStep(h3) == h4;
    assert HandleStep(h4) == h5;
    assert Times(g, Handle, 6) == Times(h1, Handle, 5) == Times(h2, Handle, 4) == Times(h3, Handle, 3) == Times(h4, Handle, 2) == Times(h5, Handle, 1);
  }

  lemma AcquiringHandlerRuns(g: Guard)
    requires g.state.Acquiring? && |g.frames| == 1 && Top(g).pc.Entered?
    ensures Times(g, Handle, 6) == g.(frames := [], pending := if g.pending.None? then Some(Top(g).signal) else g.pending,
                                      winner := if g.pending.None? then Commit(g, Top(g).signal) else g.winner)
  {
    var f := Top(g);
    var h1 := g.(frames := [f.(pc := SawAcquiring)]);
    var h2 := Next(h1, Handle);
    var h3 := Next(h2, Handle);
    assert HandleStep(g) == h1;
    assert Times(g, Handle, 6) == Times(h1, Handle, 5) == Times(h2, Handle, 4) == Times(h3, Handle, 3);
    TimesIdle(h3, 3);
  }

  lemma PassingHandlerRuns(g: Guard)
    requires !g.state.Acquiring? && !g.state.Waiting? && |g.frames| == 1 && Top(g).pc.Entered?
    ensures var forwards := (g.state.Delivering? || g.state.Cleanup?) && g.child;
      Times(g, Handle, 6) == g.(frames := [], forwarded := if forwards then g.forwarded + {Top(g).signal} else g.forwarded)
  {
    var f := Top(g);
    var h1 := g.(frames := [f.(pc := NotAcquiring)]);
    var h2 := g.(frames := [f.(pc := NotWaiting)]);
    var h3 := Next(h2, Handle);
    var h4 := Next(h3, Handle);
    assert HandleStep(g) == h1;
    assert HandleStep(h1) == h2;
    assert Times(g, Handle, 6) == Times(h1, Handle, 5) == Times(h2, Handle, 4) == Times(h3, Handle, 3) == Times(h4, Handle, 2);
    TimesIdle(h4, 2);
  }

  /** A handler that is not interrupted, in every state. */
  lemma HandlerRuns(g: Guard)
    requires g.frames == [] && !g.main.Left?
    ensures var r := Times(Next(g, Arrive), Handle, 6);
      && r.frames == [] && r.child == g.child
      && r.state == (if g.state.Waiting? then Delivering else g.state)
      && r.pending == (if g.state.Acquiring? && g.pending.None? then Some(g.received) else if g.state.Waiting? then None else g.pending)
      && r.raised == (if g.state.Waiting? then g.raised + [if g.pending.Some? then g.pending.value else g.received] else g.raised)
      && r.forwarded == (if (g.state.Delivering? || g.state.Cleanup?) && g.child then g.forwarded + {g.received} else g.forwarded)
  {
    var a := Next(g, Arrive);
    assert a.frames == [Frame(g.received, Entered, g.received)];
    if g.state.Acquiring? {
      AcquiringHandlerRuns(a);
    } else if !g.state.Waiting? {
      PassingHandlerRuns(a);
    } else if g.pending.Some? {
      PendingHandlerRuns(a);
    } else {
      WaitingHandlerRuns(a);
      TimesSplit(a, Handle, 5, 1);
      TimesIdle(Times(a, Handle, 5), 1);
    }
  }

  /** Signal 1 interrupts the handler of signal 0 before it has set "delivering": 1 is raised, and 0,
      the first signal received, is neither raised nor forwarded. */
  lemma OvertakenSignalIsLost()
    ensures var attached := Run(Fresh, seq(5, _ => Proceed(true)));
      var g := Run(Next(Next(attached, Arrive), Arrive), seq(5, _ => Handle));
      attached.main.Attached? && g.raised == [1] && g.frames == [] && 0 !in g.forwarded
  {
    RunTimes(Fresh, Proceed(true), 5);
    AttachRuns(Fresh);
    var attached := Fresh.(child := true, state := Waiting, main := Attached);
    var g := Next(Next(attached, Arrive), Arrive);
    assert g.frames == [Frame(0, Entered, 0), Frame(1, Entered, 1)];
    RunTimes(g, Handle, 5);
    WaitingHandlerRuns(g);
  }

  /** Signals 0 and 1 arrive while the child is being started, each handled without interruption: 0 is
      kept and raised by `attach`, 1 is neither raised nor forwarded. */
  lemma SecondSignalIsDropped()
    ensures var one := Times(Next(Fresh, Arrive), Handle, 6);
      var two := Times(Next(one, Arrive), Handle, 6);
      var g := Times(two, Proceed(true), 7);
      g.main.Thrown? && g.received == 2 && g.raised == [0] && Lost(g, 1) && !g.overtaken
  {
    var a := Next(Fresh, Arrive);
    AcquiringHandlerRuns(a);
    var one := a.(frames := [], pending := Some(0), winner := Some(0));
    var b := Next(one, Arrive);
    AcquiringHandlerRuns(b);
    var two := b.(frames := []);
    AttachRuns(two);
  }

  // Where the steps take the driver when it begins to clean up; a second call changes nothing.
  function Begun(g: Guard): Guard {
    match g.main
    case Starting => Next(g, Proceed(false))
    case Attached => Times(g, Proceed(true), 2)
    case Thrown => Next(g, Proceed(true))
    case _ => g
  }

  // ---------------------------------------------------------------- the guard object

  /** The guard's fields and methods. Run without interruption, each method takes the guard where the
      steps above take it. */
  class ForwardingSignalGuard {
    var state: GuardState
    var child: bool
    var pendingSignal: Option<nat>

    ghost predicate Shows(g: Guard)
      reads this
    {
      state == g.state && child == g.child && pendingSignal == g.pending && g.frames == []
    }

    constructor ()
      ensures Shows(Fresh)
    {
      state, child, pendingSignal := Acquiring, false, None;
    }

    /** `attach`: on success either nothing was pending or the pending signal is raised. */
    method Attach(ghost g: Guard) returns (failed: bool, raised: Option<nat>)
      requires Shows(g) && g.main.Starting?
      modifies this
      ensures failed == (old(state) != Acquiring || old(child))
      ensures failed ==> raised.None? && state == old(state) && child == old(child) && pendingSignal == old(pendingSignal)
      ensures !failed ==> raised == old(pendingSignal)
      ensures !failed ==> var r := Times(g, Proceed(true), if raised.None? then 5 else 7);
        Shows(r) && r.raised == (if raised.Some? then g.raised + [raised.value] else g.raised)
    {
      if state != Acquiring || child { return true, None; }
      failed := false;
      child := true;
      state := Waiting;
      raised := pendingSignal;
      AttachRuns(g);
      if raised.None? { return; }
      state := Delivering;
      pendingSignal := None;
    }

    /** `begin_cleanup`, as the driver calls it: after a failed start, when `attach` or the wait has ended,
        and again in its `finally`. */
    method BeginCleanup(ghost g: Guard)
      requires Shows(g) && Main1(g)
      requires g.main.Starting? || g.main.Attached? || g.main.Thrown? || g.main.Cleaning? || g.main.Left?
      modifies this`state
      ensures Shows(Begun(g))
    {
      if state != Closed { state := Cleanup; }
    }

    /** `_handle_signal`. */
    method HandleSignal(ghost g: Guard, signal: nat) returns (raised: Option<nat>, forwarded: bool)
      requires Shows(g) && g.received == signal && !g.main.Left?
      modifies this
      ensures var r := Times(Next(g, Arrive), Handle, 6);
        && r.frames == [] && state == r.state && child == r.child && pendingSignal == r.pending
        && r.raised == (if raised.Some? then g.raised + [raised.value] else g.raised)
        && r.forwarded == (if forwarded then g.forwarded + {signal} else g.forwarded)
    {
      raised, forwarded := None, false;
      HandlerRuns(g);
      if state == Acquiring {
        if pendingSignal.None? { pendingSignal := Some(signal); }
      } else if state == Waiting {
        state := Delivering;
        var chosen := signal;
        if pendingSignal.Some? { chosen, pendingSignal := pendingSignal.value, None; }
        raised := Some(chosen);
      } else if state == Delivering || state == Cleanup {
        forwarded := child;
      }
    }
  }
}
