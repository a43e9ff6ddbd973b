/** Sharing one leadership confirmation between readers: the hand-off between readers that join and
    the loop that runs the rounds, over every interleaving of the two. */
module Batching {
  import opened Records

  /** The locked section of a joining reader: take the queued batch or open one; whoever finds no
      loop running takes the batch away to start one. */
  function JoinLocked(next: Option<nat>, running: bool, freshId: nat): (r: (nat, bool, Option<nat>, bool)) {
    var batch: nat := if next.Some? then next.value else freshId;
    if running then (batch, false, Some(batch), true) else (batch, true, None, true)
  }

  /** The locked section after a round: take the queued batch, or stop. */
  function HandOffLocked(next: Option<nat>): (r: (Option<nat>, bool)) {
    if next.Some? then (None, true) else (None, false)
  }

  /** Where a loop is with its batch: about to capture the commit index, waiting for the majority,
      or between completing the batch and taking the lock. */
  datatype Phase = Starting | InRound | Completed

  datatype Loop = Loop(batch: nat, phase: Phase)

  datatype State = State(
    next: Option<nat>, running: bool,
    loops: map<nat, Loop>,
    batchOf: map<nat, nat>, joinedAt: map<nat, nat>,
    capturedAt: map<nat, nat>, completions: map<nat, nat>,
    clock: nat)

  datatype Step = Joins(reader: nat) | Captures(loop: nat) | Completes(loop: nat) | HandsOff(loop: nat)

  /** Batches and loops are named by the moment they were created. */
  ghost predicate Init(s: State) {
    s == State(None, false, map[], map[], map[], map[], map[], 0)
  }

  ghost predicate Enabled(s: State, step: Step) {
    match step
    case Joins(r) => r !in s.batchOf
    case Captures(l) => l in s.loops && s.loops[l].phase == Starting
    case Completes(l) => l in s.loops && s.loops[l].phase == InRound
    case HandsOff(l) => l in s.loops && s.loops[l].phase == Completed
  }

  function CompletionsOf(s: State, b: nat): nat {
    if b in s.completions then s.completions[b] else 0
  }

  ghost function Next(s: State, step: Step): State
    requires Enabled(s, step)
  {
    var t := s.(clock := s.clock + 1);
    match step
    case Joins(r) =>
      var (batch, startIt, next, running) := JoinLocked(s.next, s.running, s.clock);
      t.(next := next, running := running,
         batchOf := s.batchOf[r := batch], joinedAt := s.joinedAt[r := s.clock],
         loops := if startIt then s.loops[s.clock := Loop(batch, Starting)] else s.loops)
    case Captures(l) =>
      t.(loops := s.loops[l := s.loops[l].(phase := InRound)], capturedAt := s.capturedAt[s.loops[l].batch := s.clock])
    case Completes(l) =>
      t.(loops := s.loops[l := s.loops[l].(phase := Completed)],
         completions := s.completions[s.loops[l].batch := CompletionsOf(s, s.loops[l].batch) + 1])
    case HandsOff(l) =>
      var (next, running) := HandOffLocked(s.next);
      t.(next := next, running := running,
         loops := if s.next.Some? then s.loops[l := Loop(s.next.value, Starting)] else s.loops - {l})
  }

  ghost predicate IsRun(run: seq<State>) {
    && |run| > 0 && Init(run[0])
    && forall i :: 0 <= i < |run| - 1 ==> Steps(run[i], run[i + 1])
  }

  ghost predicate Steps(s: State, t: State) {
    exists step :: Enabled(s, step) && t == Next(s, step)
  }

  // --------------------------------------------------------------------- invariant

  ghost predicate Running(s: State, b: nat) {
    exists l :: l in s.loops && s.loops[l].batch == b && s.loops[l].phase != Completed
  }

  ghost predicate Inv(s: State) {
    Shape(s) && forall r :: r in s.batchOf ==> ReaderOk(s, r)
  }

  ghost predicate Shape(s: State) {
    && s.batchOf.Keys == s.joinedAt.Keys
    && (forall l, m :: l in s.loops && m in s.loops ==> l == m)
    && (s.running <==> s.loops != map[])
    && (s.next.Some? ==> s.running && QueuedOk(s, s.next.value))
    && (forall l :: l in s.loops ==> LoopOk(s, s.loops[l]))
    && (forall b :: b in s.completions ==> s.completions[b] == 1 && b in s.capturedAt)
    && (forall b :: b in s.capturedAt ==> b < s.clock && s.capturedAt[b] < s.clock)
  }

  /** The queued batch has not started, and is nobody's current one. */
  ghost predicate QueuedOk(s: State, b: nat) {
    && b < s.clock && b !in s.capturedAt
    && forall l :: l in s.loops ==> s.loops[l].batch != b
  }

  ghost predicate LoopOk(s: State, l: Loop) {
    && l.batch < s.clock
    && (l.phase == Starting <==> l.batch !in s.capturedAt)
    && (l.phase == Completed <==> l.batch in s.completions)
  }

  /** A reader joined before its batch captured anything, and its batch is queued, being run, or
      complete. */
  ghost predicate ReaderOk(s: State, r: nat) {
    && r in s.batchOf && r in s.joinedAt
    && var b := s.batchOf[r];
    && s.joinedAt[r] < s.clock
    && (b in s.capturedAt ==> s.joinedAt[r] < s.capturedAt[b])
    && (s.next == Some(b) || Running(s, b) || b in s.completions)
  }

  lemma ShapeKeeps(s: State, step: Step)
    requires Shape(s) && Enabled(s, step)
    ensures Shape(Next(s, step))
  {
    var t := Next(s, step);
    match step
    case Joins(r) => if !s.running { assert s.clock in t.loops; } else { assert t.loops == s.loops; }
    case Captures(l) => assert l in t.loops && t.loops.Keys == s.loops.Keys;
    case Completes(l) => assert l in t.loops && t.loops.Keys == s.loops.Keys;
    case HandsOff(l) =>
      if s.next.Some? { assert l in t.loops; } else { assert forall m :: m in s.loops ==> m == l; assert t.loops == map[]; }
  }

  lemma ReaderKeeps(s: State, step: Step, r: nat)
    requires Shape(s) && Enabled(s, step) && r in s.batchOf && ReaderOk(s, r)
    ensures ReaderOk(Next(s, step), r)
  {
    var t, b := Next(s, step), s.batchOf[r];
    if Running(s, b) {
      var l :| l in s.loops && s.loops[l].batch == b && s.loops[l].phase != Completed;
      if b !in t.completions { assert l in t.loops && t.loops[l].batch == b && t.loops[l].phase != Completed; }
    } else if s.next == Some(b) && t.next != Some(b) {
      assert step.HandsOff?;
      assert t.loops[step.loop].batch == b && t.loops[step.loop].phase != Completed;
    }
  }

  lemma JoinedReader(s: State, r: nat)
    requires Shape(s) && Enabled(s, Joins(r))
    ensures ReaderOk(Next(s, Joins(r)), r)
  {
    var t := Next(s, Joins(r));
    if !s.running { assert t.loops[s.clock] == Loop(t.batchOf[r], Starting); }
  }

  lemma StepKeeps(s: State, step: Step)
    requires Inv(s) && Enabled(s, step)
    ensures Inv(Next(s, step))
  {
    hide Shape, ReaderOk;
    ShapeKeeps(s, step);
    var t := Next(s, step);
    forall r | r in t.batchOf ensures ReaderOk(t, r) {
      if r in s.batchOf { ReaderKeeps(s, step, r); } else { JoinedReader(s, r); }
    }
  }

  lemma {:induction false} RunKeeps(run: seq<State>, i: nat)
    requires IsRun(run) && i < |run|
    ensures Inv(run[i])
    decreases i
  {
    if i > 0 {
      RunKeeps(run, i - 1);
      assert Steps(run[i - 1], run[i - 1 + 1]);
      var step :| Enabled(run[i - 1], step) && run[i] == Next(run[i - 1], step);
      StepKeeps(run[i - 1], step);
    }
  }

  // ------------------------------------------------------------------ what it means

  /** Never two loops at once. */
  lemma OneLoopAtATime(run: seq<State>, i: nat, l: nat, m: nat)
    requires IsRun(run) && i < |run| && l in run[i].loops && m in run[i].loops
    ensures l == m
  {
    hide Init, Enabled, Next;
    RunKeeps(run, i);
  }

  /** A reader's answer was captured after it joined, whenever its batch completes. */
  lemma AnswerIsNewEnough(run: seq<State>, i: nat, r: nat)
    requires IsRun(run) && i < |run| && r in run[i].batchOf && run[i].batchOf[r] in run[i].completions
    ensures var s := run[i];
            s.batchOf[r] in s.capturedAt && r in s.joinedAt && s.joinedAt[r] < s.capturedAt[s.batchOf[r]]
  {
    hide Init, Enabled, Next;
    RunKeeps(run, i);
    assert ReaderOk(run[i], r);
  }

  /** No batch is completed twice: the step that completes one only ever finds it incomplete. */
  lemma CompletedOnce(run: seq<State>, i: nat, l: nat)
    requires IsRun(run) && i < |run| && Enabled(run[i], Completes(l))
    ensures run[i].loops[l].batch !in run[i].completions
  {
    hide Init, Next;
    RunKeeps(run, i);
    assert LoopOk(run[i], run[i].loops[l]);
  }

  /** How many steps of the loop until a reader's batch is complete: those left of the current round
      if it is the current batch, those and two more if it is queued behind. */
  function Distance(s: State, l: nat, r: nat): nat
    requires l in s.loops && r in s.batchOf
  {
    var loop := s.loops[l];
    if s.batchOf[r] in s.completions then 0
    else if loop.batch == s.batchOf[r] then (if loop.phase == Starting then 2 else 1)
    else match loop.phase case Starting => 5 case InRound => 4 case Completed => 3
  }

  /** No reader is stranded: while its batch is incomplete a loop exists and has a step to take,
      every step of the loop brings the reader one nearer, and joining readers never push it back. */
  lemma NoReaderStranded(run: seq<State>, i: nat, r: nat) returns (l: nat)
    requires IsRun(run) && i < |run| && r in run[i].batchOf && run[i].batchOf[r] !in run[i].completions
    ensures l in run[i].loops
    ensures Enabled(run[i], Captures(l)) || Enabled(run[i], Completes(l)) || Enabled(run[i], HandsOff(l))
    ensures forall step :: Enabled(run[i], step) ==>
              && (!step.Joins? ==> step.loop == l)
              && l in Next(run[i], step).loops && r in Next(run[i], step).batchOf
              && Distance(Next(run[i], step), l, r) == Distance(run[i], l, r) - if step.Joins? then 0 else 1
  {
    hide Init, IsRun, Steps, Distance, Next;
    RunKeeps(run, i);
    var s := run[i];
    l := WaitingLoop(s, r);
    forall step | Enabled(s, step)
      ensures (!step.Joins? ==> step.loop == l) && l in Next(s, step).loops && r in Next(s, step).batchOf
      ensures Distance(Next(s, step), l, r) == Distance(s, l, r) - if step.Joins? then 0 else 1
    {
      StepBringsNearer(s, step, l, r);
    }
  }

  lemma WaitingLoop(s: State, r: nat) returns (l: nat)
    requires Inv(s) && r in s.batchOf && s.batchOf[r] !in s.completions
    ensures l in s.loops && (forall m :: m in s.loops ==> m == l)
  {
    assert ReaderOk(s, r);
    l :| l in s.loops;
  }

  lemma StepBringsNearer(s: State, step: Step, l: nat, r: nat)
    requires Inv(s) && r in s.batchOf && s.batchOf[r] !in s.completions && Enabled(s, step)
    requires l in s.loops && (forall m :: m in s.loops ==> m == l)
    ensures !step.Joins? ==> step.loop == l
    ensures l in Next(s, step).loops && r in Next(s, step).batchOf
    ensures Distance(Next(s, step), l, r) == Distance(s, l, r) - if step.Joins? then 0 else 1
  {
    assert ReaderOk(s, r);
    assert LoopOk(s, s.loops[l]);
  }

  // ------------------------------------------------------------------ in the code's form

  class Batcher {
    var confirmNext: Option<nat>
    var confirmRunning: bool
    var issued: nat

    constructor ()
      ensures confirmNext == None && !confirmRunning && issued == 0
    {
      confirmNext, confirmRunning, issued := None, false, 0;
    }

    /** Joining: the batch to wait on, and whether this reader must start a loop. */
    method Join() returns (batch: nat, startIt: bool)
      modifies this
      ensures (batch, startIt, confirmNext, confirmRunning) == JoinLocked(old(confirmNext), old(confirmRunning), old(issued))
      ensures issued == old(issued) + if old(confirmNext).None? then 1 else 0
    {
      if confirmNext.None? {
        confirmNext := Some(issued);
        issued := issued + 1;
      }
      batch := confirmNext.value;
      startIt := !confirmRunning;
      if startIt {
        confirmRunning := true;
        confirmNext := None;
      }
    }

    method HandOff() returns (next: Option<nat>)
      modifies this`confirmNext, this`confirmRunning
      ensures next == old(confirmNext)
      ensures confirmNext == HandOffLocked(old(confirmNext)).0
      ensures confirmRunning == if next.Some? then old(confirmRunning) else false
    {
      next := confirmNext;
      if next.Some? {
        confirmNext := None;
      } else {
        confirmRunning := false;
      }
    }

    /** The loop, against any number of readers joining during each of its rounds. It completes the
        batch it was given, then every batch anybody joined meanwhile, in the order they were
        opened, each once, and stops with nothing queued: in the first round nobody joined. */
    method RunConfirm(first: nat, arrivals: seq<nat>) returns (completed: seq<nat>, joined: seq<nat>)
      requires confirmRunning && confirmNext == None && first < issued
      modifies this
      ensures !confirmRunning && confirmNext == None
      ensures completed == [first] + joined
      ensures issued == old(issued) + |joined| && forall i :: 0 <= i < |joined| ==> joined[i] == old(issued) + i
      ensures forall b: nat :: old(issued) <= b < issued ==> b in completed
      ensures |joined| <= |arrivals| && forall i :: 0 <= i < |joined| ==> arrivals[i] > 0
      ensures |joined| < |arrivals| ==> arrivals[|joined|] == 0
      ensures forall i, j :: 0 <= i < j < |completed| ==> completed[i] < completed[j]
    {
      completed, joined := [], [];
      var batch := Some(first);
      var round := 0;
      while batch.Some?
        invariant confirmNext == None && confirmRunning == batch.Some?
        invariant completed + Queued(batch) == [first] + joined
        invariant Numbered(joined, old(issued), issued)
        invariant |joined| <= |arrivals| && forall i :: 0 <= i < |joined| ==> arrivals[i] > 0
        invariant batch.Some? ==> round == |joined|
        invariant batch.None? ==> round == |joined| + 1 && (|joined| < |arrivals| ==> arrivals[|joined|] == 0)
        decreases |arrivals| + 1 - round
      {
        var joining := if round < |arrivals| then arrivals[round] else 0;
        ghost var before := joined;
        for k := 0 to joining
          invariant confirmRunning && (k == 0 ==> confirmNext.None?)
          invariant joined == before + Queued(confirmNext) && (k > 0 ==> confirmNext.Some?)
          invariant Numbered(joined, old(issued), issued)
        {
          var opens := confirmNext.None?;
          var b, startIt := Join();
          assert !startIt;
          if opens { joined := joined + [b]; }
        }
        completed := completed + [batch.value];
        assert completed == [first] + before;
        batch := HandOff();
        round := round + 1;
      }
      assert completed + [] == completed;
      forall b: nat | old(issued) <= b < issued ensures b in completed { assert completed[1 + (b - old(issued))] == b; }
    }
  }

  function Queued(b: Option<nat>): seq<nat> {
    if b.Some? then [b.value] else []
  }

  /** Every number from one up to another, in order. */
  ghost predicate Numbered(s: seq<nat>, from: nat, to: nat) {
    to == from + |s| && forall i :: 0 <= i < |s| ==> s[i] == from + i
  }
}
