/** What `processJob` guarantees under every schedule and every moment of cancellation. */
module ProcessJobTheorems {
  import opened Types
  import opened ProcessJob

  // ---------- From steps to runs ----------

  lemma {:induction false} RunInv(s: State, steps: seq<Step>)
    requires Inv(s) && ValidRun(s, steps)
    ensures Inv(Exec(s, steps))
    ensures Exec(s, steps).limit == s.limit && |Exec(s, steps).lines| == |s.lines|
    decreases |steps|
  {
    if steps != [] {
      StepInv(s, steps[0]);
      RunInv(Apply(s, steps[0]), steps[1..]);
    }
  }

  lemma ReachableInv(limit: nat, total: nat, s: State)
    requires Reachable(limit, total, s)
    ensures Inv(s) && s.limit == limit && |s.lines| == total
  {
    var steps :| ValidRun(Init(limit, total), steps) && Exec(Init(limit, total), steps) == s;
    InitInv(limit, total);
    RunInv(Init(limit, total), steps);
  }

  lemma {:induction false} RunAppend(s: State, steps: seq<Step>, step: Step)
    requires ValidRun(s, steps) && Enabled(Exec(s, steps), step)
    ensures ValidRun(s, steps + [step])
    ensures Exec(s, steps + [step]) == Apply(Exec(s, steps), step)
    decreases |steps|
  {
    if steps == [] {
      assert (steps + [step])[1..] == [];
    } else {
      assert (steps + [step])[1..] == steps[1..] + [step];
      RunAppend(Apply(s, steps[0]), steps[1..], step);
    }
  }

  lemma ReachableStep(limit: nat, total: nat, s: State, step: Step)
    requires Reachable(limit, total, s) && Enabled(s, step)
    ensures Reachable(limit, total, Apply(s, step))
  {
    var steps :| ValidRun(Init(limit, total), steps) && Exec(Init(limit, total), steps) == s;
    RunAppend(Init(limit, total), steps, step);
  }

  lemma InitReachable(limit: nat, total: nat)
    ensures Reachable(limit, total, Init(limit, total))
  {
    assert ValidRun(Init(limit, total), []) && Exec(Init(limit, total), []) == Init(limit, total);
  }

  // ---------- Concurrency bound ----------

  /**
   * In every reachable state the goroutines that still own a semaphore token, and so in
   * particular those inside the inference call, are at most MaxJobConcurrency.
   */
  lemma ConcurrencyBound(limit: nat, total: nat, s: State)
    requires Reachable(limit, total, s)
    ensures Count(s.lines, Calling) <= Count(s.lines, HoldingToken) <= limit
    ensures |set i: nat | i < |s.lines| && s.lines[i].Generating?| <= limit
    ensures s.sem <= limit
  {
    ReachableInv(limit, total, s);
    CountMono(s.lines, Calling, HoldingToken);
    CountIsNumber(s.lines, Calling, |s.lines|);
    assert s.lines[..|s.lines|] == s.lines;
    assert Members(s.lines, Calling, |s.lines|) == set i: nat | i < |s.lines| && s.lines[i].Generating?;
  }

  ghost predicate AliveAlwaysWithin(limit: nat, total: nat) {
    forall s :: Reachable(limit, total, s) ==> Count(s.lines, Alive) <= limit
  }

  /**
   * A goroutine returns its token before it calls wg.Done, so a goroutine that has nothing left
   * to do but wg.Done does not count against the semaphore. Counting such goroutines too, the
   * limit is respected by every schedule exactly when the job has no more lines than the limit
   * (or when nothing can ever start).
   */
  lemma AliveWithinLimitIff(limit: nat, total: nat)
    ensures AliveAlwaysWithin(limit, total) <==> total <= limit || limit == 0
  {
    if limit == 0 {
      forall s | Reachable(limit, total, s) ensures Count(s.lines, Alive) <= limit {
        NothingStarts(total, s);
      }
    } else if total <= limit {
      forall s | Reachable(limit, total, s) ensures Count(s.lines, Alive) <= limit {
        ReachableInv(limit, total, s);
        CountMono(s.lines, Alive, Alive);
      }
    } else {
      EndedLinesReachable(limit, total, limit + 1);
      CountEnded(limit, total, limit + 1);
    }
  }

  predicate NotLaunched(l: LinePc) {
    l.Unsent? || l.AtMain? || l.Abandoned?
  }

  predicate NoLaunch(s: State) {
    && s.limit == 0 && !s.main.Launch?
    && forall i :: 0 <= i < |s.lines| ==> NotLaunched(s.lines[i])
  }

  lemma {:induction false} NoLaunchRun(s: State, steps: seq<Step>)
    requires NoLaunch(s) && ValidRun(s, steps)
    ensures NoLaunch(Exec(s, steps))
    decreases |steps|
  {
    if steps != [] {
      NoLaunchRun(Apply(s, steps[0]), steps[1..]);
    }
  }

  lemma NothingStarts(total: nat, s: State)
    requires Reachable(0, total, s)
    ensures Count(s.lines, Alive) == 0
  {
    var steps :| ValidRun(Init(0, total), steps) && Exec(Init(0, total), steps) == s;
    NoLaunchRun(Init(0, total), steps);
    CountZero(s.lines, Alive);
  }

  /** The first `k` lines are counted, and their goroutines have only wg.Done left to call. */
  function EndedLines(limit: nat, total: nat, k: nat): State
    requires k <= total
  {
    State(limit, seq(total, i => if i < k then Signalling(Success) else Unsent),
          k, true, false, Receive, 0, k, None, k, 0, false, [InProgress, Validating])
  }

  /** A line goroutine that runs alone from its start to the point before wg.Done. */
  lemma LineRuns(limit: nat, total: nat, s: State, i: nat) returns (t: State)
    requires Reachable(limit, total, s) && i < |s.lines| && s.lines[i].Check?
    requires !s.cancelled && s.holder.None? && s.sem > 0
    ensures Reachable(limit, total, t)
    ensures t == s.(lines := s.lines[i := Signalling(Success)], succeeded := s.succeeded + 1, sem := s.sem - 1)
  {
    t := Advance(limit, total, s, Line(i, true));
    t := Advance(limit, total, t, Line(i, true));
    t := Advance(limit, total, t, Line(i, true));
    t := Advance(limit, total, t, Line(i, true));
    t := Advance(limit, total, t, Line(i, true));
    t := Advance(limit, total, t, Line(i, true));
    assert t.lines == s.lines[i := Signalling(Success)];
  }

  lemma Advance(limit: nat, total: nat, s: State, step: Step) returns (t: State)
    requires Reachable(limit, total, s) && Enabled(s, step)
    ensures t == Apply(s, step) && Reachable(limit, total, t)
  {
    ReachableStep(limit, total, s, step);
    t := Apply(s, step);
  }

  lemma {:induction false} EndedLinesReachable(limit: nat, total: nat, k: nat)
    requires 1 <= limit && k <= total
    ensures Reachable(limit, total, EndedLines(limit, total, k))
  {
    var s := Init(limit, total);
    if k == 0 {
      InitReachable(limit, total);
      s := Advance(limit, total, s, SetStatus);
      s := Advance(limit, total, s, SetStatus);
    } else {
      EndedLinesReachable(limit, total, k - 1);
      s := EndedLines(limit, total, k - 1);
      s := Advance(limit, total, s, TakeLine);
      s := Advance(limit, total, s, TakeToken);
      s := Advance(limit, total, s, Spawn);
      s := LineRuns(limit, total, s, k - 1);
    }
    assert s.lines == EndedLines(limit, total, k).lines;
    assert s == EndedLines(limit, total, k);
  }

  lemma CountEnded(limit: nat, total: nat, k: nat)
    requires k <= total
    ensures Count(EndedLines(limit, total, k).lines, Alive) == k
  {
    CountAlive(EndedLines(limit, total, k).lines, k);
  }

  lemma {:induction false} CountAlive(lines: seq<LinePc>, alive: nat)
    requires alive <= |lines|
    requires forall i :: 0 <= i < |lines| ==> (Is(Alive, lines[i]) <==> i < alive)
    ensures Count(lines, Alive) == alive
  {
    if lines != [] {
      CountAlive(lines[..|lines| - 1], if alive == |lines| then alive - 1 else alive);
    }
  }

  // ---------- Status order and barrier ----------

  /**
   * The status writes of one job are always an initial part of in_progress, validating,
   * finalizing, completed, and all of it when the job returns normally. When finalizing is about to
   * be written, and ever after, no line is unsent, no line goroutine is left, the semaphore is empty
   * and the WaitGroup is at zero.
   */
  lemma StatusOrderAndBarrier(limit: nat, total: nat, s: State)
    requires Reachable(limit, total, s)
    ensures s.calls <= [InProgress, Validating, Finalizing, Completed] && |s.lines| == total
    ensures s.main.Returned? ==> s.calls == [InProgress, Validating, Finalizing, Completed]
    ensures s.main.UpdateRow? || s.main.SetCompleted? ==> s.calls == [InProgress, Validating, Finalizing]
    ensures s.main.SetFinalizing? || Finalizing in s.calls ==>
              s.sem == 0 && s.wg == 0 && s.sent == total && s.closed
              && forall i :: 0 <= i < total ==> s.lines[i].Gone?
    ensures Completed in s.calls <==> s.main.Returned?
  {
    ReachableInv(limit, total, s);
    assert s.calls == WRITES[..|s.calls|];
    if s.main.SetFinalizing? || Finalizing in s.calls {
      CountZero(s.lines, HoldingToken);
      CountZero(s.lines, Alive);
    }
    if s.main.Returned? {
      assert s.calls[3] == Completed;
    }
  }

  // ---------- The database update ----------

  /** How often the job wrote its record back. */
  function Updates(steps: seq<Step>): nat {
    if steps == [] then 0 else (if steps[0].Update? then 1 else 0) + Updates(steps[1..])
  }

  predicate Wrote(m: MainPc) {
    m.SetCompleted? || m.Returned?
  }

  lemma {:induction false} RunUpdates(s: State, steps: seq<Step>)
    requires ValidRun(s, steps)
    ensures var m := Exec(s, steps).main;
            && (s.main.Panicked? ==> m.Panicked? && Updates(steps) == 0)
            && (Wrote(s.main) ==> Updates(steps) == 0 && (Wrote(m) || m.Panicked?))
            && (!Wrote(s.main) ==>
                  Updates(steps) <= 1 && (!m.Panicked? ==> Updates(steps) == if Wrote(m) then 1 else 0))
    decreases |steps|
  {
    if steps != [] {
      RunUpdates(Apply(s, steps[0]), steps[1..]);
    }
  }

  /**
   * The job writes its record back at most once, exactly once if it returns normally, and then
   * between the writes of finalizing and completed, when every line goroutine has ended.
   */
  lemma RecordIsWrittenOnce(limit: nat, total: nat, steps: seq<Step>)
    requires ValidRun(Init(limit, total), steps)
    ensures var s := Exec(Init(limit, total), steps);
            && Updates(steps) <= 1 && (s.main.Returned? ==> Updates(steps) == 1)
            && (Enabled(s, Update) ==>
                  Updates(steps) == 0 && s.calls == [InProgress, Validating, Finalizing] && s.wg == 0)
  {
    var s := Exec(Init(limit, total), steps);
    assert Reachable(limit, total, s);
    RunUpdates(Init(limit, total), steps);
    StatusOrderAndBarrier(limit, total, s);
  }

  // ---------- Conservation of lines ----------

  lemma {:induction false} CountUnsent(lines: seq<LinePc>, sent: nat)
    requires sent <= |lines|
    requires forall i :: 0 <= i < |lines| ==> (lines[i].Unsent? <==> sent <= i)
    ensures Count(lines, NotReceived) == |lines| - sent
  {
    if lines != [] {
      var last := |lines| - 1;
      CountUnsent(lines[..last], if sent <= last then sent else last);
    }
  }

  lemma {:induction false} EveryLineInOneGroup(lines: seq<LinePc>)
    ensures Count(lines, NotReceived) + Count(lines, InFlight) + Count(lines, Succeeding)
            + Count(lines, Failing) + Count(lines, Skipping) + Count(lines, Dropped) == |lines|
  {
    if lines != [] {
      EveryLineInOneGroup(lines[..|lines| - 1]);
    }
  }

  lemma {:induction false} AtMostOneDropped(lines: seq<LinePc>, at: nat)
    requires forall i :: 0 <= i < |lines| && lines[i].Abandoned? ==> i == at
    ensures Count(lines, Dropped) == if at < |lines| && lines[at].Abandoned? then 1 else 0
  {
    if lines != [] {
      AtMostOneDropped(lines[..|lines| - 1], at);
    }
  }

  lemma LineFacts(s: State)
    requires LinesInv(s)
    ensures forall i :: 0 <= i < |s.lines| ==> (s.lines[i].Unsent? <==> s.sent <= i)
    ensures forall i :: 0 <= i < |s.lines| && s.lines[i].Abandoned? ==> s.main.Aborted? && i == s.sent - 1
    ensures forall i :: 0 <= i < |s.lines| && Is(Skipping, s.lines[i]) ==> s.cancelled
  {
    forall i | 0 <= i < |s.lines|
      ensures s.lines[i].Unsent? <==> s.sent <= i
      ensures s.lines[i].Abandoned? ==> s.main.Aborted? && i == s.sent - 1
      ensures Is(Skipping, s.lines[i]) ==> s.cancelled
    {
      assert LineOk(s, i);
    }
  }

  /** Every line is unreceived, in flight, counted, skipped or dropped, and is so exactly once. */
  lemma LinesConserved(limit: nat, total: nat, s: State)
    requires Reachable(limit, total, s)
    ensures (total - s.sent) + Count(s.lines, InFlight) + s.succeeded + s.failed
            + Count(s.lines, Skipping) + Count(s.lines, Dropped) == total
    ensures Count(s.lines, Dropped) == (if s.main.Aborted? then 1 else 0)
    ensures !s.cancelled ==> Count(s.lines, Skipping) == 0
    ensures s.succeeded + s.failed <= total
    ensures s.succeeded == Count(s.lines, Succeeding) && s.failed == Count(s.lines, Failing)
  {
    ReachableInv(limit, total, s);
    LineFacts(s);
    CountUnsent(s.lines, s.sent);
    EveryLineInOneGroup(s.lines);
    if s.sent > 0 {
      AtMostOneDropped(s.lines, s.sent - 1);
    } else {
      CountZero(s.lines, Dropped);
    }
    CountZero(s.lines, Skipping);
  }

  /** When wg.Wait has returned, `Validate` holds exactly when no goroutine took the cancelled branch. */
  lemma ValidateIffNoneSkipped(limit: nat, total: nat, s: State)
    requires Reachable(limit, total, s)
    requires s.main.SetFinalizing?
    ensures |s.lines| == total
    ensures s.Validate() <==> forall i :: 0 <= i < total ==> s.lines[i] != Gone(Skipped)
  {
    ReachableInv(limit, total, s);
    LinesConserved(limit, total, s);
    CountZero(s.lines, InFlight);
    CountZero(s.lines, Skipping);
  }

  /** At most one goroutine is between Lock and Unlock, where the tally is changed. */
  lemma MutualExclusion(limit: nat, total: nat, s: State, i: nat, j: nat)
    requires Reachable(limit, total, s) && i < |s.lines| && j < |s.lines|
    requires s.lines[i].Locked? || s.lines[i].Tallied?
    requires s.lines[j].Locked? || s.lines[j].Tallied?
    ensures i == j
  {
    ReachableInv(limit, total, s);
    assert LineOk(s, i) && LineOk(s, j);
  }

  /** The line's verdict so far is the one its inference call returned. */
  predicate Carries(l: LinePc, ok: bool) {
    match l
    case WantLock(o) => o == ok
    case Locked(o) => o == ok
    case Tallied(r) => r == if ok then Success else Failure
    case Leaving(r) => r == if ok then Success else Failure
    case Signalling(r) => r == if ok then Success else Failure
    case Gone(r) => r == if ok then Success else Failure
    case _ => false
  }

  lemma LineStepCarries(s: State, k: nat, o: bool, i: nat, ok: bool)
    requires LineEnabled(s, k) && i < |s.lines| && LineOk(s, i) && Carries(s.lines[i], ok)
    ensures i < |ApplyLine(s, k, o).lines| && Carries(ApplyLine(s, k, o).lines[i], ok)
  {
  }

  lemma StepCarries(s: State, step: Step, i: nat, ok: bool)
    requires LinesInv(s) && Enabled(s, step) && i < |s.lines| && Carries(s.lines[i], ok)
    ensures i < |Apply(s, step).lines| && Carries(Apply(s, step).lines[i], ok)
  {
    assert LineOk(s, i);
    match step {
      case Line(k, o) => LineStepCarries(s, k, o, i, ok);
      case _ => assert Apply(s, step).lines[i] == s.lines[i];
    }
  }

  lemma {:induction false} RunCarries(s: State, steps: seq<Step>, i: nat, ok: bool)
    requires Inv(s) && ValidRun(s, steps) && i < |s.lines| && Carries(s.lines[i], ok)
    ensures i < |Exec(s, steps).lines| && Carries(Exec(s, steps).lines[i], ok)
    decreases |steps|
  {
    if steps != [] {
      StepInv(s, steps[0]);
      StepCarries(s, steps[0], i, ok);
      RunCarries(Apply(s, steps[0]), steps[1..], i, ok);
    }
  }

  /**
   * A line whose inference call returns in some step of a run is counted as that call returned,
   * whatever the other goroutines and the context do afterwards.
   */
  lemma CallOutcomeIsTallied(limit: nat, total: nat, s: State, i: nat, ok: bool, rest: seq<Step>)
    requires Reachable(limit, total, s) && i < |s.lines| && s.lines[i].Generating?
    requires ValidRun(ApplyLine(s, i, ok), rest)
    ensures var t := Exec(ApplyLine(s, i, ok), rest);
            && i < |t.lines| && Carries(t.lines[i], ok)
            && (Is(Succeeding, t.lines[i]) ==> ok) && (Is(Failing, t.lines[i]) ==> !ok)
            && !Is(Skipping, t.lines[i])
            && (t.lines[i].Gone? ==> t.lines[i] == Gone(if ok then Success else Failure))
  {
    ReachableInv(limit, total, s);
    StepInv(s, Line(i, ok));
    RunCarries(ApplyLine(s, i, ok), rest, i, ok);
  }

  // ---------- Termination ----------

  function LineWeight(l: LinePc): nat {
    match l
    case Unsent => 10
    case AtMain => 8
    case Check => 7
    case Generating => 6
    case WantLock(_) => 5
    case Locked(_) => 4
    case Tallied(_) => 3
    case Leaving(_) => 2
    case Signalling(_) => 1
    case _ => 0
  }

  function LinesWeight(lines: seq<LinePc>): nat {
    if lines == [] then 0 else LinesWeight(lines[..|lines| - 1]) + LineWeight(lines[|lines| - 1])
  }

  lemma {:induction false} LinesWeightUpdate(lines: seq<LinePc>, i: nat, l: LinePc)
    requires i < |lines|
    ensures LinesWeight(lines[i := l]) == LinesWeight(lines) - LineWeight(lines[i]) + LineWeight(l)
  {
    var last := |lines| - 1;
    if i == last {
      assert lines[i := l][..last] == lines[..last];
    } else {
      assert lines[i := l][..last] == lines[..last][i := l];
      LinesWeightUpdate(lines[..last], i, l);
    }
  }

  function MainWeight(m: MainPc): nat {
    match m
    case SetInProgress => 8
    case SetValidating => 7
    case Acquire(_) => 7
    case Receive => 6
    case Launch(_) => 6
    case Wait => 5
    case SetFinalizing => 4
    case UpdateRow => 3
    case SetCompleted => 2
    case _ => 0
  }

  /** Drops at every step, whoever takes it. */
  function Measure(s: State): nat {
    LinesWeight(s.lines) + MainWeight(s.main) + (if s.closed then 0 else 1) + (if s.cancelled then 0 else 1)
  }

  lemma LinePcDecreases(s: State, i: nat, ok: bool)
    requires LineEnabled(s, i)
    ensures LineWeight(ApplyLine(s, i, ok).lines[i]) < LineWeight(s.lines[i])
    ensures ApplyLine(s, i, ok).lines == s.lines[i := ApplyLine(s, i, ok).lines[i]]
  {
    match s.lines[i] {
      case Check =>
      case _ =>
    }
  }

  lemma LineStepDecreases(s: State, i: nat, ok: bool)
    requires LineEnabled(s, i)
    ensures Measure(ApplyLine(s, i, ok)) < Measure(s)
  {
    LinePcDecreases(s, i, ok);
    LinesWeightUpdate(s.lines, i, ApplyLine(s, i, ok).lines[i]);
  }

  lemma HandOverDecreases(s: State, step: Step)
    requires LinesInv(s) && Enabled(s, step) && (step.TakeLine? || step.Abort? || step.Spawn?)
    ensures Measure(Apply(s, step)) < Measure(s)
  {
    var i := if step.TakeLine? then s.sent else s.main.line;
    assert LineOk(s, i);
    LinesWeightUpdate(s.lines, i, Apply(s, step).lines[i]);
  }

  lemma StepDecreases(s: State, step: Step)
    requires LinesInv(s) && Enabled(s, step)
    ensures Measure(Apply(s, step)) < Measure(s)
  {
    match step {
      case Line(i, ok) => LineStepDecreases(s, i, ok);
      case TakeLine => HandOverDecreases(s, step);
      case Abort => HandOverDecreases(s, step);
      case Spawn => HandOverDecreases(s, step);
      case _ =>
    }
  }

  lemma {:induction false} InitWeight(lines: seq<LinePc>)
    requires forall i :: 0 <= i < |lines| ==> lines[i].Unsent?
    ensures LinesWeight(lines) == 10 * |lines|
  {
    if lines != [] {
      InitWeight(lines[..|lines| - 1]);
    }
  }

  lemma {:induction false} RunWithinMeasure(s: State, steps: seq<Step>)
    requires Inv(s) && ValidRun(s, steps)
    ensures |steps| + Measure(Exec(s, steps)) <= Measure(s)
    decreases |steps|
  {
    if steps != [] {
      StepInv(s, steps[0]);
      StepDecreases(s, steps[0]);
      RunWithinMeasure(Apply(s, steps[0]), steps[1..]);
    }
  }

  /** No schedule is longer than ten steps per line plus ten. */
  lemma RunsAreBounded(limit: nat, total: nat, steps: seq<Step>)
    requires ValidRun(Init(limit, total), steps)
    ensures |steps| <= 10 * total + 10
  {
    InitInv(limit, total);
    InitWeight(Init(limit, total).lines);
    RunWithinMeasure(Init(limit, total), steps);
  }

  // ---------- Deadlock freedom ----------

  predicate NoLineAlive(s: State) {
    forall i :: 0 <= i < |s.lines| ==> !Is(Alive, s.lines[i])
  }

  /** Every goroutine has ended: the job's own, those of the lines and, if it was started, the producer. */
  predicate Quiescent(s: State) {
    s.main.IsOver() && NoLineAlive(s) && (s.started ==> s.closed)
  }

  /** Some goroutine of the program itself can take an ordinary step. */
  ghost predicate CanMove(s: State) {
    exists step: Step :: !step.Cancel? && !step.ClientPanic? && Enabled(s, step)
  }

  /**
   * The job goroutine returned early, out of its receive loop, while the producer still has lines
   * to send: nobody receives from the unbuffered channel any more.
   */
  predicate ProducerStranded(s: State) {
    s.main.Aborted? && s.sent < |s.lines|
  }

  /** The job goroutine waits for room in a semaphore that has none, and the producer cannot go on. */
  predicate Starved(s: State) {
    s.limit == 0 && s.main.Acquire? && !s.cancelled && (s.closed || s.sent < |s.lines|)
  }

  lemma AliveLineMoves(s: State, i: nat)
    requires Inv(s) && i < |s.lines| && Is(Alive, s.lines[i])
    ensures CanMove(s)
  {
    assert LineOk(s, i);
    if s.lines[i].Leaving? {
      CountZero(s.lines, HoldingToken);
      assert Enabled(s, Line(i, true));
    } else if s.lines[i].WantLock? && s.holder.Some? {
      var h := s.holder.value;
      assert LineOk(s, h);
      assert Enabled(s, Line(h, true));
    } else {
      assert Enabled(s, Line(i, true));
    }
  }

  lemma MainMoves(s: State)
    requires Inv(s) && !s.main.IsOver() && NoLineAlive(s) && !Starved(s)
    ensures CanMove(s)
  {
    CountZero(s.lines, Alive);
    CountZero(s.lines, HoldingToken);
    if s.main.Receive? {
      assert Enabled(s, TakeLine) || Enabled(s, EndOfLines) || Enabled(s, CloseChannel);
    } else if s.main.Acquire? {
      assert Enabled(s, TakeToken) || Enabled(s, Abort) || Enabled(s, CloseChannel);
    } else if s.main.Launch? {
      assert Enabled(s, Spawn);
    } else if s.main.Wait? {
      assert Enabled(s, WaitReturns);
    } else if s.main.UpdateRow? {
      assert Enabled(s, Update);
    } else {
      assert Enabled(s, SetStatus);
    }
  }

  lemma MovesUnlessStuck(s: State)
    requires Inv(s) && !Quiescent(s) && !Starved(s) && !(ProducerStranded(s) && NoLineAlive(s))
    ensures CanMove(s)
  {
    if i :| 0 <= i < |s.lines| && Is(Alive, s.lines[i]) {
      AliveLineMoves(s, i);
    } else if !s.main.IsOver() {
      MainMoves(s);
    } else {
      assert Enabled(s, CloseChannel);
    }
  }

  /** A step of the program needs a live line goroutine, a job goroutine that goes on, or the producer. */
  lemma NothingToMove(s: State)
    requires NoLineAlive(s) && (s.main.IsOver() || Starved(s))
    requires s.started ==> s.closed || s.sent < |s.lines|
    ensures !CanMove(s)
  {
    forall i: nat | i < |s.lines| ensures !LineEnabled(s, i) {
      assert !Is(Alive, s.lines[i]);
    }
    forall step: Step | Enabled(s, step) ensures step.Cancel? || step.ClientPanic? {
    }
  }

  /**
   * The exact list of deadlocks. A reachable state with goroutines left, none of which can move,
   * is one where the producer is stranded and all else has ended, or one where the job goroutine
   * is starved by a semaphore of capacity 0.
   */
  lemma StuckIff(limit: nat, total: nat, s: State)
    requires Reachable(limit, total, s)
    ensures !Quiescent(s) && !CanMove(s) <==> Starved(s) || (ProducerStranded(s) && NoLineAlive(s))
  {
    ReachableInv(limit, total, s);
    if Starved(s) {
      NothingStarts(total, s);
      CountZero(s.lines, Alive);
      NothingToMove(s);
    } else if ProducerStranded(s) && NoLineAlive(s) {
      NothingToMove(s);
    } else if !Quiescent(s) {
      MovesUnlessStuck(s);
    }
  }

  /** Once stranded the producer is so for ever: it never sends another line nor closes the channel. */
  lemma {:induction false} StrandedForever(limit: nat, total: nat, s: State, steps: seq<Step>)
    requires Reachable(limit, total, s) && ProducerStranded(s) && ValidRun(s, steps)
    ensures var t := Exec(s, steps);
            ProducerStranded(t) && t.started && !t.closed && t.sent == s.sent && t.cancelled
    decreases |steps|
  {
    ReachableInv(limit, total, s);
    if steps != [] {
      ReachableStep(limit, total, s, steps[0]);
      StrandedForever(limit, total, Apply(s, steps[0]), steps[1..]);
    }
  }

  /** The shortest way there: the context ends while the job goroutine holds the first line. */
  lemma AbortedAtOnce(limit: nat, total: nat) returns (s: State)
    requires 2 <= total
    ensures Reachable(limit, total, s) && ProducerStranded(s) && NoLineAlive(s)
  {
    s := Init(limit, total);
    InitReachable(limit, total);
    s := Advance(limit, total, s, SetStatus);
    s := Advance(limit, total, s, SetStatus);
    s := Advance(limit, total, s, TakeLine);
    s := Advance(limit, total, s, Cancel);
    s := Advance(limit, total, s, Abort);
  }

  /** A cancellation can leave the producer behind exactly when the job has at least two lines. */
  lemma ProducerLeaksIff(limit: nat, total: nat)
    ensures (exists s :: Reachable(limit, total, s) && ProducerStranded(s)) <==> 2 <= total
  {
    if 2 <= total {
      var s := AbortedAtOnce(limit, total);
    } else {
      forall s | Reachable(limit, total, s) ensures !ProducerStranded(s) {
        ReachableInv(limit, total, s);
      }
    }
  }

  /** Starved: with no capacity in the semaphore the first line waits for a token that never comes. */
  lemma ZeroLimitStarves(total: nat) returns (s: State)
    requires 0 < total
    ensures Reachable(0, total, s) && Starved(s)
  {
    s := Init(0, total);
    InitReachable(0, total);
    s := Advance(0, total, s, SetStatus);
    s := Advance(0, total, s, SetStatus);
    s := Advance(0, total, s, TakeLine);
    if total == 1 {
      s := Advance(0, total, s, CloseChannel);
    }
  }

  ghost predicate DeadlockFree(limit: nat, total: nat) {
    forall s :: Reachable(limit, total, s) && !Quiescent(s) ==> CanMove(s)
  }

  /**
   * Producer, job goroutine and line goroutines together can always go on until all have ended
   * exactly when no second line can be left with the producer and no line waits for ever.
   */
  lemma DeadlockFreeIff(limit: nat, total: nat)
    ensures DeadlockFree(limit, total) <==> total == 0 || (total == 1 && 1 <= limit)
  {
    if 2 <= total {
      var s := AbortedAtOnce(limit, total);
      StuckIff(limit, total, s);
    } else if 0 < total && limit == 0 {
      var s := ZeroLimitStarves(total);
      StuckIff(limit, total, s);
    } else {
      forall s | Reachable(limit, total, s) && !Quiescent(s) ensures CanMove(s) {
        ReachableInv(limit, total, s);
        StuckIff(limit, total, s);
      }
    }
  }

  ghost predicate DeadlockFreeUnlessStranded(limit: nat, total: nat) {
    forall s :: Reachable(limit, total, s) && !Quiescent(s) && !ProducerStranded(s) ==> CanMove(s)
  }

  /**
   * Apart from a stranded producer, and so always while the context is live, the job can go on until
   * everything has ended exactly when the semaphore has room for one goroutine, or there is no line.
   */
  lemma DeadlockFreeUnlessStrandedIff(limit: nat, total: nat)
    ensures DeadlockFreeUnlessStranded(limit, total) <==> 1 <= limit || total == 0
    ensures forall s :: Reachable(limit, total, s) && ProducerStranded(s) ==> s.cancelled
  {
    forall s | Reachable(limit, total, s)
      ensures ProducerStranded(s) ==> s.cancelled
      ensures (1 <= limit || total == 0) && !Quiescent(s) && !ProducerStranded(s) ==> CanMove(s)
    {
      ReachableInv(limit, total, s);
      StuckIff(limit, total, s);
    }
    if limit == 0 && 0 < total {
      var s := ZeroLimitStarves(total);
      StuckIff(limit, total, s);
    }
  }

  /**
   * `processJob` returns: a run that cannot be extended, except by a cancellation or a panicking
   * client, has the job goroutine over and no line goroutine left, and by `RunsAreBounded` every
   * run reaches such a point. The producer has ended too, unless it is stranded.
   */
  lemma MaximalRunsReturn(limit: nat, total: nat, steps: seq<Step>)
    requires 1 <= limit || total == 0
    requires ValidRun(Init(limit, total), steps)
    requires !CanMove(Exec(Init(limit, total), steps))
    ensures var s := Exec(Init(limit, total), steps);
            && s.main.IsOver() && NoLineAlive(s)
            && ((s.started ==> s.closed) <==> !ProducerStranded(s))
            && (!s.cancelled ==> Quiescent(s))
            && (!s.cancelled && !s.main.Panicked? ==> s.main.Returned? && s.Validate())
  {
    var s := Exec(Init(limit, total), steps);
    assert Reachable(limit, total, s);
    ReachableInv(limit, total, s);
    StuckIff(limit, total, s);
    LinesConserved(limit, total, s);
    if s.main.Returned? {
      CountZero(s.lines, InFlight);
    }
  }
}
