/**
 * `processJob` as a concurrent program: the goroutine that runs the job, the producer that
 * feeds the unbuffered line channel, one goroutine per line, the counting semaphore, the
 * WaitGroup, the mutex around the tally, and a context that may be cancelled at any moment.
 * A schedule is a sequence of steps; every theorem ranges over all schedules.
 */
module ProcessJob {
  import opened Types

  datatype Outcome = Success | Failure | Skipped

  /** Where one input line is. From `Check` to `Signalling` the line has a live goroutine. */
  datatype LinePc =
    | Unsent                   // still with the producer
    | AtMain                   // received by the job goroutine, no goroutine yet
    | Abandoned                // received, then dropped because the context was cancelled
    | Check                    // goroutine started, about to look at the context
    | Generating               // inside the inference call
    | WantLock(ok: bool)       // the call returned, waiting for the mutex
    | Locked(ok: bool)         // holds the mutex, tally not yet changed
    | Tallied(outcome: Outcome) // holds the mutex, tally changed
    | Leaving(outcome: Outcome) // about to take its token out of the semaphore
    | Signalling(outcome: Outcome) // token returned, about to call wg.Done
    | Gone(outcome: Outcome)

  /** Where the job goroutine is. */
  datatype MainPc =
    | SetInProgress
    | SetValidating
    | Receive
    | Acquire(line: nat)
    | Launch(line: nat)
    | Wait
    | SetFinalizing
    | UpdateRow
    | SetCompleted
    | Returned
    | Aborted   // returned early because of the context
    | Panicked  // a client call panicked; the caller's deferred function recovers
  {
    predicate IsOver() {
      Returned? || Aborted? || Panicked?
    }

    predicate AtClientCall() {
      SetInProgress? || SetValidating? || SetFinalizing? || UpdateRow? || SetCompleted?
    }
  }

  datatype State = State(
    limit: nat,              // MaxJobConcurrency, the capacity of the semaphore
    lines: seq<LinePc>,
    sent: nat,               // lines handed over by the producer
    started: bool,           // the producer goroutine exists
    closed: bool,            // the line channel is closed
    main: MainPc,
    sem: nat,                // tokens in the semaphore channel
    wg: int,                 // WaitGroup counter
    holder: Option<nat>,     // the line whose goroutine holds the mutex
    succeeded: nat,          // metadata.Succeeded
    failed: nat,             // metadata.Failed
    cancelled: bool,         // the context is done
    calls: seq<BatchStatus>) // status-store writes issued so far
  {
    /** `JobResultMetadata.Validate`, with Total equal to the number of lines. */
    predicate Validate() {
      succeeded + failed == |lines|
    }
  }

  function Init(limit: nat, total: nat): State {
    State(limit, seq(total, i => Unsent), 0, false, false, SetInProgress, 0, 0, None, 0, 0, false, [])
  }

  /** The status writes `processJob` makes when nothing interrupts it, in order. */
  const WRITES := [InProgress, Validating, Finalizing, Completed]

  datatype Step =
    | SetStatus
    | Update
    | ClientPanic
    | TakeLine
    | CloseChannel
    | EndOfLines
    | TakeToken
    | Abort
    | Spawn
    | WaitReturns
    | Line(i: nat, ok: bool)
    | Cancel

  /** What the goroutine of line `i` may do next; `ok` chooses the inference outcome. */
  predicate LineEnabled(s: State, i: nat) {
    i < |s.lines| &&
    match s.lines[i]
    case Check => true
    case Generating => true
    case WantLock(_) => s.holder.None?
    case Locked(_) => true
    case Tallied(_) => true
    case Leaving(_) => s.sem > 0
    case Signalling(_) => true
    case _ => false
  }

  predicate Enabled(s: State, step: Step) {
    match step
    case SetStatus => s.main.AtClientCall() && !s.main.UpdateRow?
    case Update => s.main.UpdateRow?
    case ClientPanic => s.main.AtClientCall()
    case TakeLine => s.main.Receive? && s.sent < |s.lines|
    case CloseChannel => s.started && !s.closed && s.sent == |s.lines|
    case EndOfLines => s.main.Receive? && s.closed
    case TakeToken => s.main.Acquire? && s.sem < s.limit
    case Abort => s.main.Acquire? && s.main.line < |s.lines| && s.cancelled
    case Spawn => s.main.Launch? && s.main.line < |s.lines|
    case WaitReturns => s.main.Wait? && s.wg == 0
    case Line(i, ok) => LineEnabled(s, i)
    case Cancel => !s.cancelled
  }

  function ApplyLine(s: State, i: nat, ok: bool): State
    requires LineEnabled(s, i)
  {
    match s.lines[i]
    case Check =>
      s.(lines := s.lines[i := if s.cancelled then Leaving(Skipped) else Generating])
    case Generating => s.(lines := s.lines[i := WantLock(ok)])
    case WantLock(o) => s.(lines := s.lines[i := Locked(o)], holder := Some(i))
    case Locked(o) =>
      if o then s.(lines := s.lines[i := Tallied(Success)], succeeded := s.succeeded + 1)
      else s.(lines := s.lines[i := Tallied(Failure)], failed := s.failed + 1)
    case Tallied(r) => s.(lines := s.lines[i := Leaving(r)], holder := None)
    case Leaving(r) => s.(lines := s.lines[i := Signalling(r)], sem := s.sem - 1)
    case Signalling(r) => s.(lines := s.lines[i := Gone(r)], wg := s.wg - 1)
  }

  function Apply(s: State, step: Step): State
    requires Enabled(s, step)
  {
    match step
    case SetStatus =>
      (match s.main
       case SetInProgress => s.(main := SetValidating, calls := s.calls + [InProgress])
       case SetValidating => s.(main := Receive, started := true, calls := s.calls + [Validating])
       case SetFinalizing => s.(main := UpdateRow, calls := s.calls + [Finalizing])
       case SetCompleted => s.(main := Returned, calls := s.calls + [Completed]))
    case Update => s.(main := SetCompleted)
    case ClientPanic => s.(main := Panicked)
    case TakeLine => s.(main := Acquire(s.sent), sent := s.sent + 1, lines := s.lines[s.sent := AtMain])
    case CloseChannel => s.(closed := true)
    case EndOfLines => s.(main := Wait)
    case TakeToken => s.(main := Launch(s.main.line), sem := s.sem + 1)
    case Abort => s.(main := Aborted, lines := s.lines[s.main.line := Abandoned])
    case Spawn => s.(main := Receive, wg := s.wg + 1, lines := s.lines[s.main.line := Check])
    case WaitReturns => s.(main := SetFinalizing)
    case Line(i, ok) => ApplyLine(s, i, ok)
    case Cancel => s.(cancelled := true)
  }

  ghost predicate ValidRun(s: State, steps: seq<Step>)
    decreases |steps|
  {
    steps == [] || (Enabled(s, steps[0]) && ValidRun(Apply(s, steps[0]), steps[1..]))
  }

  ghost function Exec(s: State, steps: seq<Step>): State
    requires ValidRun(s, steps)
    decreases |steps|
  {
    if steps == [] then s else Exec(Apply(s, steps[0]), steps[1..])
  }

  ghost predicate Reachable(limit: nat, total: nat, s: State) {
    exists steps :: ValidRun(Init(limit, total), steps) && Exec(Init(limit, total), steps) == s
  }

  // ---------- Counting lines by where they are ----------

  /** The groups of lines that the program's counters and the accounting speak of. */
  datatype Group =
    | NotReceived
    | InFlight     // received, no verdict yet
    | Calling      // inside the inference call
    | HoldingToken // a live goroutine whose semaphore token is still taken
    | Alive        // a live goroutine: it has not called wg.Done
    | Succeeding
    | Failing
    | Skipping     // took the cancelled branch inside its goroutine
    | Dropped      // abandoned by the job goroutine

  predicate Is(g: Group, l: LinePc) {
    match g
    case NotReceived => l.Unsent?
    case InFlight => l.AtMain? || l.Check? || l.Generating? || l.WantLock? || l.Locked?
    case Calling => l.Generating?
    case HoldingToken => l.Check? || l.Generating? || l.WantLock? || l.Locked? || l.Tallied? || l.Leaving?
    case Alive =>
      l.Check? || l.Generating? || l.WantLock? || l.Locked? || l.Tallied? || l.Leaving? || l.Signalling?
    case Succeeding => Finished(l, Success)
    case Failing => Finished(l, Failure)
    case Skipping => Finished(l, Skipped)
    case Dropped => l.Abandoned?
  }

  predicate Finished(l: LinePc, r: Outcome) {
    (l.Tallied? || l.Leaving? || l.Signalling? || l.Gone?) && l.outcome == r
  }

  function Weight(g: Group, l: LinePc): nat {
    if Is(g, l) then 1 else 0
  }

  function Count(lines: seq<LinePc>, g: Group): nat {
    if lines == [] then 0
    else Count(lines[..|lines| - 1], g) + Weight(g, lines[|lines| - 1])
  }

  lemma {:induction false} CountUpdate(lines: seq<LinePc>, i: nat, l: LinePc, g: Group)
    requires i < |lines|
    ensures Count(lines[i := l], g) == Count(lines, g) - Weight(g, lines[i]) + Weight(g, l)
  {
    var last := |lines| - 1;
    if i == last {
      assert lines[i := l][..last] == lines[..last];
    } else {
      assert lines[i := l][..last] == lines[..last][i := l];
      CountUpdate(lines[..last], i, l, g);
    }
  }

  lemma {:induction false} CountZero(lines: seq<LinePc>, g: Group)
    ensures Count(lines, g) == 0 <==> forall i :: 0 <= i < |lines| ==> !Is(g, lines[i])
  {
    if lines != [] {
      var last := |lines| - 1;
      CountZero(lines[..last], g);
      assert lines == lines[..last] + [lines[last]];
    }
  }

  function Members(lines: seq<LinePc>, g: Group, n: nat): set<nat>
    requires n <= |lines|
  {
    set i: nat | i < n && Is(g, lines[i])
  }

  /** `Count` is the number of lines in the group. */
  lemma {:induction false} CountIsNumber(lines: seq<LinePc>, g: Group, n: nat)
    requires n <= |lines|
    ensures Count(lines[..n], g) == |Members(lines, g, n)|
  {
    if n > 0 {
      CountIsNumber(lines, g, n - 1);
      assert lines[..n][..n - 1] == lines[..n - 1];
      MembersGrow(lines, g, n - 1);
    } else {
      assert Members(lines, g, n) == {};
    }
  }

  lemma MembersGrow(lines: seq<LinePc>, g: Group, n: nat)
    requires n < |lines|
    ensures |Members(lines, g, n + 1)| == |Members(lines, g, n)| + Weight(g, lines[n])
  {
    if Is(g, lines[n]) {
      assert Members(lines, g, n + 1) == Members(lines, g, n) + {n};
    } else {
      assert Members(lines, g, n + 1) == Members(lines, g, n);
    }
  }

  lemma {:induction false} CountMono(lines: seq<LinePc>, g: Group, h: Group)
    requires forall l :: Is(g, l) ==> Is(h, l)
    ensures Count(lines, g) <= Count(lines, h) <= |lines|
  {
    if lines != [] {
      CountMono(lines[..|lines| - 1], g, h);
    }
  }

  // ---------- The invariant ----------

  predicate MainHas(main: MainPc, i: nat) {
    (main.Acquire? || main.Launch?) && main.line == i
  }

  predicate InsideLock(l: LinePc) {
    l.Locked? || l.Tallied?
  }

  /** What is known of line `i`: who has it, and why. */
  predicate LineOk(s: State, i: nat)
    requires i < |s.lines|
  {
    var l := s.lines[i];
    && (l.Unsent? <==> s.sent <= i)
    && (l.AtMain? <==> MainHas(s.main, i))
    && (l.Abandoned? ==> s.main.Aborted? && i == s.sent - 1)
    && (Is(Skipping, l) ==> s.cancelled)
    && (InsideLock(l) <==> s.holder == Some(i))
    && (l.Tallied? ==> !l.outcome.Skipped?)
  }

  /** Where the job goroutine is, compared with the lines handed over. */
  predicate MainLineInv(s: State) {
    && s.sent <= |s.lines|
    && (s.main.Acquire? || s.main.Launch? ==> s.main.line < |s.lines| && s.main.line == s.sent - 1)
    && (s.main.Aborted? ==> s.cancelled && 0 < s.sent && s.lines[s.sent - 1].Abandoned?)
    && (s.holder.Some? ==> s.holder.value < |s.lines|)
  }

  /** The lines already handed over are the first `sent`; the job goroutine owns at most one. */
  predicate LinesInv(s: State) {
    && MainLineInv(s)
    && (forall i {:trigger LineOk(s, i)} :: 0 <= i < |s.lines| ==> LineOk(s, i))
  }

  predicate CountersInv(s: State) {
    && s.sem == Count(s.lines, HoldingToken) + (if s.main.Launch? then 1 else 0)
    && s.sem <= s.limit
    && s.wg == Count(s.lines, Alive)
    && s.succeeded == Count(s.lines, Succeeding)
    && s.failed == Count(s.lines, Failing)
  }

  predicate AllGone(s: State) {
    s.closed && forall i :: 0 <= i < |s.lines| ==> s.lines[i].Gone?
  }

  predicate MainInv(s: State) {
    && (s.started <==> |s.calls| >= 2)
    && (s.closed ==> s.started && s.sent == |s.lines|)
    && (!s.started ==> s.sent == 0)
    && (s.main.Wait? ==> s.closed)
    && (s.main.SetFinalizing? || s.main.UpdateRow? || s.main.SetCompleted? || s.main.Returned? ==> AllGone(s))
    && (s.main.Panicked? ==> AllGone(s) || !s.started)
    && |s.calls| <= 4 && s.calls == WRITES[..|s.calls|]
    && (match s.main
        case SetInProgress => |s.calls| == 0
        case SetValidating => |s.calls| == 1
        case SetFinalizing => |s.calls| == 2
        case UpdateRow => |s.calls| == 3
        case SetCompleted => |s.calls| == 3
        case Returned => |s.calls| == 4
        case Panicked => |s.calls| < 4 && (s.started ==> AllGone(s))
        case _ => |s.calls| == 2)
  }

  predicate Inv(s: State) {
    LinesInv(s) && CountersInv(s) && MainInv(s)
  }

  lemma {:induction false} InitInv(limit: nat, total: nat)
    ensures Inv(Init(limit, total))
  {
    var s := Init(limit, total);
    CountZero(s.lines, HoldingToken);
    CountZero(s.lines, Alive);
    CountZero(s.lines, Succeeding);
    CountZero(s.lines, Failing);
  }

  lemma LineStepLineOk(s: State, i: nat, ok: bool, k: nat)
    requires LineEnabled(s, i) && LineOk(s, i) && k < |s.lines| && LineOk(s, k)
    ensures LineOk(ApplyLine(s, i, ok), k)
  {
  }

  lemma StepLineOk(s: State, step: Step, k: nat)
    requires LinesInv(s) && Enabled(s, step) && k < |s.lines|
    ensures LineOk(Apply(s, step), k)
  {
    assert LineOk(s, k);
    match step {
      case Line(i, ok) => LineStepLineOk(s, i, ok, k);
      case _ =>
    }
  }

  lemma LineStepMainLineInv(s: State, i: nat, ok: bool)
    requires MainLineInv(s) && LineEnabled(s, i)
    ensures MainLineInv(ApplyLine(s, i, ok))
  {
  }

  lemma StepMainLineInv(s: State, step: Step)
    requires MainLineInv(s) && Enabled(s, step)
    ensures MainLineInv(Apply(s, step))
  {
    match step {
      case Line(i, ok) => LineStepMainLineInv(s, i, ok);
      case _ =>
    }
  }

  lemma StepLinesInv(s: State, step: Step)
    requires LinesInv(s) && Enabled(s, step)
    ensures LinesInv(Apply(s, step))
  {
    var t := Apply(s, step);
    StepMainLineInv(s, step);
    forall k | 0 <= k < |t.lines| ensures LineOk(t, k) {
      StepKeepsSize(s, step);
      StepLineOk(s, step, k);
    }
  }

  lemma StepKeepsSize(s: State, step: Step)
    requires Enabled(s, step)
    ensures Apply(s, step).limit == s.limit && |Apply(s, step).lines| == |s.lines|
  {
  }

  /** Moving one line changes the four counters by the weights of its old and new position. */
  lemma MoveLine(s: State, i: nat, l: LinePc, t: State)
    requires CountersInv(s) && i < |s.lines| && t.lines == s.lines[i := l] && t.limit == s.limit
    requires t.sem - s.sem == Weight(HoldingToken, l) - Weight(HoldingToken, s.lines[i])
                              + (if t.main.Launch? then 1 else 0) - (if s.main.Launch? then 1 else 0)
    requires t.sem <= t.limit
    requires t.wg - s.wg == Weight(Alive, l) - Weight(Alive, s.lines[i])
    requires t.succeeded - s.succeeded == Weight(Succeeding, l) - Weight(Succeeding, s.lines[i])
    requires t.failed - s.failed == Weight(Failing, l) - Weight(Failing, s.lines[i])
    ensures CountersInv(t)
  {
    CountUpdate(s.lines, i, l, HoldingToken);
    CountUpdate(s.lines, i, l, Alive);
    CountUpdate(s.lines, i, l, Succeeding);
    CountUpdate(s.lines, i, l, Failing);
  }

  lemma LineStepCountersInv(s: State, i: nat, ok: bool)
    requires CountersInv(s) && LineEnabled(s, i)
    ensures CountersInv(ApplyLine(s, i, ok))
  {
    match s.lines[i] {
      case Check => WorkingStepCountersInv(s, i, ok);
      case Generating => WorkingStepCountersInv(s, i, ok);
      case WantLock(_) => WorkingStepCountersInv(s, i, ok);
      case Locked(_) => WorkingStepCountersInv(s, i, ok);
      case _ => LeavingStepCountersInv(s, i, ok);
    }
  }

  lemma WorkingStepCountersInv(s: State, i: nat, ok: bool)
    requires CountersInv(s) && LineEnabled(s, i)
    requires s.lines[i].Check? || s.lines[i].Generating? || s.lines[i].WantLock? || s.lines[i].Locked?
    ensures CountersInv(ApplyLine(s, i, ok))
  {
    var t := ApplyLine(s, i, ok);
    match s.lines[i] {
      case Check => MoveLine(s, i, if s.cancelled then Leaving(Skipped) else Generating, t);
      case Generating => MoveLine(s, i, WantLock(ok), t);
      case WantLock(o) => MoveLine(s, i, Locked(o), t);
      case Locked(o) => MoveLine(s, i, Tallied(if o then Success else Failure), t);
    }
  }

  lemma LeavingStepCountersInv(s: State, i: nat, ok: bool)
    requires CountersInv(s) && LineEnabled(s, i)
    requires s.lines[i].Tallied? || s.lines[i].Leaving? || s.lines[i].Signalling?
    ensures CountersInv(ApplyLine(s, i, ok))
  {
    var t := ApplyLine(s, i, ok);
    match s.lines[i] {
      case Tallied(r) => MoveLine(s, i, Leaving(r), t);
      case Leaving(r) => MoveLine(s, i, Signalling(r), t);
      case Signalling(r) => MoveLine(s, i, Gone(r), t);
    }
  }

  lemma MainStepCountersInv(s: State, step: Step)
    requires LinesInv(s) && CountersInv(s) && Enabled(s, step)
    requires step.TakeLine? || step.Abort? || step.Spawn?
    ensures CountersInv(Apply(s, step))
  {
    var i := if step.TakeLine? then s.sent else s.main.line;
    assert LineOk(s, i);
    MoveLine(s, i, Apply(s, step).lines[i], Apply(s, step));
  }

  lemma StepCountersInv(s: State, step: Step)
    requires LinesInv(s) && CountersInv(s) && Enabled(s, step)
    ensures CountersInv(Apply(s, step))
  {
    match step {
      case Line(i, ok) => LineStepCountersInv(s, i, ok);
      case TakeLine => MainStepCountersInv(s, step);
      case Abort => MainStepCountersInv(s, step);
      case Spawn => MainStepCountersInv(s, step);
      case _ =>
    }
  }

  /** When the WaitGroup is at zero and every line was received, every goroutine has ended. */
  lemma NoneAlive(s: State)
    requires LinesInv(s) && CountersInv(s) && s.closed && s.sent == |s.lines| && s.wg == 0
    requires !s.main.Acquire? && !s.main.Launch? && !s.main.Aborted?
    ensures AllGone(s)
  {
    CountZero(s.lines, Alive);
    forall i | 0 <= i < |s.lines| ensures s.lines[i].Gone? {
      assert LineOk(s, i) && !Is(Alive, s.lines[i]);
    }
  }

  lemma ClientStepMainInv(s: State, step: Step)
    requires MainInv(s) && Enabled(s, step)
    requires step.SetStatus? || step.Update? || step.ClientPanic?
    ensures MainInv(Apply(s, step))
  {
  }

  lemma LineStepMainInv(s: State, i: nat, ok: bool)
    requires MainInv(s) && LineEnabled(s, i)
    ensures MainInv(ApplyLine(s, i, ok))
  {
    assert !AllGone(s);
  }

  lemma StepMainInv(s: State, step: Step)
    requires LinesInv(s) && CountersInv(s) && MainInv(s) && Enabled(s, step)
    ensures MainInv(Apply(s, step))
  {
    match step {
      case SetStatus => ClientStepMainInv(s, step);
      case Update => ClientStepMainInv(s, step);
      case ClientPanic => ClientStepMainInv(s, step);
      case WaitReturns => NoneAlive(s);
      case Line(i, ok) => LineStepMainInv(s, i, ok);
      case _ =>
    }
  }

  lemma StepInv(s: State, step: Step)
    requires Inv(s) && Enabled(s, step)
    ensures Inv(Apply(s, step))
    ensures Apply(s, step).limit == s.limit && |Apply(s, step).lines| == |s.lines|
  {
    StepKeepsSize(s, step);
    StepLinesInv(s, step);
    StepCountersInv(s, step);
    StepMainInv(s, step);
  }
}
