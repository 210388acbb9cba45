/** The in-memory priority queue: a slice of entries, shifted and re-sliced in place. */
module MockQueue {
  import opened Types
  import opened QueueSpec

  /** What other goroutines may do to the queue while a Dequeue is between two polls. */
  datatype Op =
    | Enq(entry: Entry)
    | Deq(maxObjs: nat)
    | Rem(id: JobId)

  function AfterOp(q: seq<Entry>, op: Op): seq<Entry> {
    match op
    case Enq(e) => Insert(q, e)
    case Deq(n) => q[Min(n, |q|)..]
    case Rem(id) => Without(q, id)
  }

  function AfterOps(q: seq<Entry>, ops: seq<Op>): seq<Entry> {
    if ops == [] then q else AfterOp(AfterOps(q, ops[..|ops| - 1]), ops[|ops| - 1])
  }

  /** 10 milliseconds, in nanoseconds: the wait between two polls. */
  const POLL: nat := 10_000_000

  /**
   * One round of the poll loop: what the others did since the previous round, the clock when
   * the queue was found empty, and whether the finished context is noticed.
   */
  datatype Round = Round(others: seq<Op>, now: int, ctxDone: bool)

  datatype DequeueResult =
    | Got(items: seq<Entry>)
    | TimedOut
    | ContextDone
    | Panicked // `make` with a negative length, inside the mutex

  /** What the round finds; every round but the first starts from a queue found empty. */
  function FoundAt(q: seq<Entry>, rounds: nat -> Round, k: nat): seq<Entry> {
    AfterOps(if k == 0 then q else [], rounds(k).others)
  }

  /** The round neither finds an entry nor gives up. */
  predicate GoesOn(q: seq<Entry>, rounds: nat -> Round, start: int, timeout: int, k: nat) {
    && FoundAt(q, rounds, k) == []
    && timeout != 0 && rounds(k).now <= start + timeout && !rounds(k).ctxDone
  }

  /** The result and the rest of the queue, given what the last round found. */
  predicate Explains(found: seq<Entry>, round: Round, start: int, timeout: int, maxObjs: int,
                     r: DequeueResult, rest: seq<Entry>)
  {
    match r
    case Got(items) =>
      found != [] && 0 <= maxObjs
      && items == found[..Min(maxObjs, |found|)] && rest == found[Min(maxObjs, |found|)..]
    case Panicked => found != [] && maxObjs < 0 && rest == found
    case TimedOut => found == [] && rest == [] && (timeout == 0 || start + timeout < round.now)
    case ContextDone =>
      found == [] && rest == [] && timeout != 0 && round.now <= start + timeout && round.ctxDone
  }

  function MostPolls(timeout: int): nat {
    if timeout <= 0 then 1 else timeout / POLL + 2
  }

  lemma ExplainsMeans(found: seq<Entry>, round: Round, start: int, timeout: int, maxObjs: int,
                      r: DequeueResult, rest: seq<Entry>)
    requires Explains(found, round, start, timeout, maxObjs, r, rest)
    ensures (r.Got? <==> found != [] && 0 <= maxObjs) && (r.Panicked? <==> found != [] && maxObjs < 0)
    ensures r.Got? ==> r.items + rest == found && |r.items| == if maxObjs < |found| then maxObjs else |found|
    ensures !r.Got? ==> rest == found
    ensures r.TimedOut? <==> found == [] && (timeout == 0 || start + timeout < round.now)
  {
  }

  /** The clock starts no earlier than `start` and advances by at least the wait between polls. */
  ghost predicate ClockAdvances(rounds: nat -> Round, start: int) {
    && start <= rounds(0).now
    && forall k: nat :: rounds(k).now + POLL <= rounds(k + 1).now
  }

  lemma {:induction false} ClockAt(rounds: nat -> Round, start: int, k: nat)
    requires ClockAdvances(rounds, start)
    ensures start + k * POLL <= rounds(k).now
  {
    if k > 0 {
      ClockAt(rounds, start, k - 1);
      assert rounds(k - 1).now + POLL <= rounds(k - 1 + 1).now;
    }
  }

  class MockBatchPriorityQueueClient {
    // The slice: `len` entries of `buf` from `off` on; the rest of `buf` is its spare capacity.
    var buf: array<Entry>
    var off: nat
    var len: nat
    var locked: bool

    ghost predicate Valid()
      reads `buf, `off, `len
    {
      off + len <= buf.Length
    }

    function Contents(): seq<Entry>
      requires Valid()
      reads `buf, `off, `len, buf
    {
      buf[off..off + len]
    }

    constructor ()
      ensures Valid() && Contents() == [] && !locked && fresh(buf)
    {
      buf := new Entry[0];
      off, len, locked := 0, 0, false;
    }

    /** `append` of one slot: in place when there is capacity, into a larger array otherwise. */
    method Grow(blank: Entry)
      requires Valid()
      modifies this, buf
      ensures Valid() && (buf == old(buf) || fresh(buf)) && locked == old(locked)
      ensures Contents() == old(Contents()) + [blank]
    {
      if off + len == buf.Length {
        var larger := new Entry[2 * len + 1](i requires 0 <= i && Valid() reads this, buf =>
                                               if i < len then buf[off + i] else blank);
        buf, off := larger, 0;
      }
      buf[off + len] := blank;
      len := len + 1;
    }

    /** `copy(queue[i+1:], queue[i:])`: everything from `i` on moves one place to the right. */
    method ShiftRight(i: nat)
      requires Valid() && i < len
      modifies buf
      ensures Contents() == old(Contents()[..i + 1] + Contents()[i..len - 1])
    {
      ghost var q := Contents();
      forall k | i < k < len {
        buf[off + k] := buf[off + k - 1];
      }
      ghost var r := q[..i + 1] + q[i..len - 1];
      assert |Contents()| == |r|;
      forall k | 0 <= k < len ensures Contents()[k] == r[k] {
        assert buf[off + k] == if k <= i then q[k] else q[k - 1];
      }
    }

    /** `append(queue[:i], queue[i+1:]...)`: everything after `i` moves one place to the left. */
    method CloseGap(i: nat)
      requires Valid() && i < len
      modifies this`len, buf
      ensures Valid() && Contents() == Cut(old(Contents()), i)
    {
      ghost var q := Contents();
      forall k | i <= k < len - 1 {
        buf[off + k] := buf[off + k + 1];
      }
      len := len - 1;
      CutAt(q, i);
      assert forall k :: 0 <= k < len ==> Contents()[k] == Cut(q, i)[k];
    }

    method Put(i: nat, e: Entry)
      requires Valid() && i < len
      modifies buf
      ensures Contents() == old(Contents())[i := e]
    {
      buf[off + i] := e;
    }

    /** The search loop of Enqueue. */
    method SearchInsertIndex(slo: int) returns (insertIdx: nat)
      requires Valid()
      ensures insertIdx == InsertIndex(Contents(), slo)
    {
      insertIdx := len;
      for i := 0 to len
        invariant insertIdx == len
        invariant forall k :: 0 <= k < i ==> Contents()[k].slo <= slo
      {
        if slo < buf[off + i].slo {
          insertIdx := i;
          break;
        }
      }
      InsertIndexIs(Contents(), slo, insertIdx);
    }

    /** `append`, then `copy`, then the write at the insertion index. */
    method InsertSlot(i: nat, e: Entry)
      requires Valid() && i <= len
      modifies this, buf
      ensures Valid() && (buf == old(buf) || fresh(buf)) && locked == old(locked)
      ensures Contents() == old(Contents())[..i] + [e] + old(Contents())[i..]
    {
      ghost var q := Contents();
      var blank := BatchJobPriority("", 0);
      Grow(blank);
      ghost var wide := Contents();
      assert wide == q + [blank];
      ShiftRight(i);
      ghost var shifted := Contents();
      Put(i, e);
      ShiftedInsert(q, blank, i, e, shifted);
    }

    method Enqueue(jobPriority: Entry)
      requires Valid() && !locked
      modifies this, buf
      ensures Valid() && !locked && (buf == old(buf) || fresh(buf))
      ensures Contents() == Insert(old(Contents()), jobPriority)
    {
      locked := true;
      var insertIdx := SearchInsertIndex(jobPriority.slo);
      InsertSlot(insertIdx, jobPriority);
      locked := false;
    }

    /** The search loop of Remove: the length when the ID is not there. */
    method SearchId(id: JobId) returns (i: nat)
      requires Valid()
      ensures i == IndexOf(Contents(), id)
    {
      i := 0;
      while i < len && buf[off + i].id != id
        invariant i <= len
        invariant forall k :: 0 <= k < i ==> Contents()[k].id != id
      {
        i := i + 1;
      }
      IndexOfIs(Contents(), id, i);
    }

    /** The part of Dequeue inside the mutex, when the queue is not empty. */
    method TakeFront(maxObjs: nat) returns (result: seq<Entry>)
      requires Valid()
      modifies this`off, this`len
      ensures Valid()
      ensures result == old(Contents())[..Min(maxObjs, |old(Contents())|)]
      ensures Contents() == old(Contents())[Min(maxObjs, |old(Contents())|)..]
    {
      var count := Min(maxObjs, len);
      result := buf[off..off + count];
      off, len := off + count, len - count;
    }

    method Remove(id: JobId) returns (removed: nat)
      requires Valid() && !locked
      modifies this, buf
      ensures Valid() && !locked && buf == old(buf)
      ensures Contents() == Without(old(Contents()), id)
      ensures removed == if IndexOf(old(Contents()), id) < |old(Contents())| then 1 else 0
    {
      locked := true;
      var i := SearchId(id);
      removed := 0;
      if i < len {
        CloseGap(i);
        removed := 1;
      }
      locked := false;
    }

    /** What another goroutine does between two polls. */
    method Other(op: Op)
      requires Valid() && !locked
      modifies this, buf
      ensures Valid() && !locked && (buf == old(buf) || fresh(buf))
      ensures Contents() == AfterOp(old(Contents()), op)
    {
      match op {
        case Enq(e) => Enqueue(e);
        case Deq(n) => var _ := TakeFront(n);
        case Rem(id) => var _ := Remove(id);
      }
    }

    /** What the other goroutines do between two polls. */
    method Others(ops: seq<Op>)
      requires Valid() && !locked
      modifies this, buf
      ensures Valid() && !locked && (buf == old(buf) || fresh(buf))
      ensures Contents() == AfterOps(old(Contents()), ops)
    {
      for i := 0 to |ops|
        invariant Valid() && !locked && (buf == old(buf) || fresh(buf))
        invariant Contents() == AfterOps(old(Contents()), ops[..i])
      {
        assert ops[..i + 1][..i] == ops[..i];
        Other(ops[i]);
      }
      assert ops[..|ops|] == ops;
    }

    /** One round: the others' actions, the look at the queue under the mutex, the two give-up tests. */
    method Poll(round: Round, start: int, timeout: int, maxObjs: int) returns (r: Option<DequeueResult>)
      requires Valid() && !locked
      modifies this, buf
      ensures Valid() && (locked <==> r == Some(Panicked)) && (buf == old(buf) || fresh(buf))
      ensures var found := AfterOps(old(Contents()), round.others);
              if r.Some? then Explains(found, round, start, timeout, maxObjs, r.value, Contents())
              else found == [] && Contents() == [] && timeout != 0 && round.now <= start + timeout && !round.ctxDone
    {
      Others(round.others);
      ghost var found := Contents();
      locked := true;
      if len > 0 {
        if maxObjs < 0 {
          return Some(Panicked);
        }
        var items := TakeFront(maxObjs);
        locked := false;
        return Some(Got(items));
      }
      locked := false;
      if timeout == 0 || start + timeout < round.now {
        return Some(TimedOut);
      }
      r := if round.ctxDone then Some(ContextDone) else None;
    }

    /**
     * Polls until it finds an entry, the deadline has passed or the context is done. It ends
     * after at most timeout / 10 ms + 2 polls; what it returns is the front of the queue as it is
     * in the last poll. The mutex is free again unless a negative maxObjs meets a non-empty queue:
     * that panics with the mutex held.
     */
    method Dequeue(start: int, timeout: int, maxObjs: int, rounds: nat -> Round)
      returns (r: DequeueResult, ghost polls: nat)
      requires Valid() && !locked
      requires ClockAdvances(rounds, start)
      modifies this, buf
      ensures Valid() && (locked <==> r == Panicked) && (buf == old(buf) || fresh(buf))
      ensures 1 <= polls <= if timeout <= 0 then 1 else timeout / POLL + 2
      ensures forall k: nat :: k < polls - 1 ==> GoesOn(old(Contents()), rounds, start, timeout, k)
      ensures var found, last := FoundAt(old(Contents()), rounds, polls - 1), rounds(polls - 1);
              && (r.Got? <==> found != [] && 0 <= maxObjs) && (r.Panicked? <==> found != [] && maxObjs < 0)
              && (r.Got? ==> r.items + Contents() == found
                             && |r.items| == if maxObjs < |found| then maxObjs else |found|)
              && (!r.Got? ==> Contents() == found)
              && (r.TimedOut? <==> found == [] && (timeout == 0 || start + timeout < last.now))
    {
      polls := 0;
      var round := 0;
      while true
        invariant Valid() && !locked && (buf == old(buf) || fresh(buf))
        invariant polls == round
        invariant Contents() == if round == 0 then old(Contents()) else []
        invariant forall k: nat :: k < round ==> GoesOn(old(Contents()), rounds, start, timeout, k)
        invariant round > 0 ==> (round - 1) * POLL <= timeout && 0 < timeout
        invariant round < MostPolls(timeout)
        decreases MostPolls(timeout) - round
      {
        var found := Poll(rounds(round), start, timeout, maxObjs);
        polls := round + 1;
        if found.Some? {
          ExplainsMeans(FoundAt(old(Contents()), rounds, round), rounds(round), start, timeout, maxObjs,
                        found.value, Contents());
          return found.value, polls;
        }
        ClockAt(rounds, start, round);
        round := round + 1;
        PollCount(timeout, round);
      }
    }
  }

  /** Growing by a blank, shifting from `i` on and writing at `i` is inserting at `i`. */
  lemma ShiftedInsert(q: seq<Entry>, blank: Entry, i: nat, e: Entry, shifted: seq<Entry>)
    requires i <= |q| && shifted == (q + [blank])[..i + 1] + (q + [blank])[i..|q|]
    ensures shifted[i := e] == q[..i] + [e] + q[i..]
  {
  }

  /** Enough polls to pass the deadline. */
  lemma PollCount(timeout: int, round: nat)
    requires round > 0 ==> (round - 1) * POLL <= timeout && 0 < timeout
    ensures round < MostPolls(timeout)
  {
  }

  lemma {:induction false} InsertIndexIs(q: seq<Entry>, slo: int, i: nat)
    requires i <= |q| && (forall k :: 0 <= k < i ==> q[k].slo <= slo) && (i < |q| ==> slo < q[i].slo)
    ensures InsertIndex(q, slo) == i
  {
  }

  lemma {:induction false} IndexOfIs(q: seq<Entry>, id: JobId, i: nat)
    requires i <= |q| && (forall k :: 0 <= k < i ==> q[k].id != id) && (i < |q| ==> q[i].id == id)
    ensures IndexOf(q, id) == i
  {
  }
}
