/**
 * The event channels of batch jobs. A channel is named by a handle, the number of channels
 * created before it; the registry maps a job ID to the handles of its consumers.
 */
module EventChannels {
  import opened Positions
  import opened Types

  datatype EventType = CancelEvent | PauseEvent | ResumeEvent

  datatype Event = Event(id: JobId, kind: EventType, ttl: int)

  /** Capacity of a consumer's channel. */
  const CAPACITY: nat := 100

  type Handle = nat

  datatype Channel = Channel(
    id: JobId,
    buffer: seq<Event>,
    closed: bool,
    received: seq<Event>) // history: what the consumer took out, oldest first

  datatype State = State(registry: map<JobId, seq<Handle>>, chans: seq<Channel>)

  const EMPTY := State(map[], [])

  function Consumers(s: State, id: JobId): seq<Handle> {
    if id in s.registry then s.registry[id] else []
  }

  function AfterRegister(s: State, id: JobId): State {
    State(s.registry[id := Consumers(s, id) + [|s.chans|]], s.chans + [Channel(id, [], false, [])])
  }

  function Position(hs: seq<Handle>, h: Handle): (i: nat)
    ensures i <= |hs| && h !in hs[..i] && (i < |hs| ==> hs[i] == h)
  {
    if hs == [] || hs[0] == h then 0
    else
      var i := Position(hs[1..], h);
      assert hs[..i + 1] == [hs[0]] + hs[1..][..i];
      i + 1
  }

  function Without(hs: seq<Handle>, h: Handle): seq<Handle> {
    var i := Position(hs, h);
    if i == |hs| then hs else hs[..i] + hs[i + 1..]
  }

  function Unregister(registry: map<JobId, seq<Handle>>, id: JobId, h: Handle): map<JobId, seq<Handle>> {
    if id !in registry then registry
    else if Without(registry[id], h) == [] then registry - {id}
    else registry[id := Without(registry[id], h)]
  }

  function AfterClose(s: State, h: Handle): State
    requires h < |s.chans|
  {
    State(Unregister(s.registry, s.chans[h].id, h), s.chans[h := s.chans[h].(closed := true)])
  }

  predicate IsRegistered(s: State, h: Handle)
    requires h < |s.chans|
  {
    h in Consumers(s, s.chans[h].id)
  }

  function AfterCloseAll(s: State): State {
    State(map[], seq(|s.chans|, h requires 0 <= h < |s.chans| =>
                       if IsRegistered(s, h) then s.chans[h].(closed := true) else s.chans[h]))
  }

  /** A non-blocking send: the event is dropped when the buffer is full. */
  function Accept(c: Channel, e: Event): Channel {
    c.(buffer := if |c.buffer| < CAPACITY then c.buffer + [e] else c.buffer)
  }

  function AfterOffer(s: State, h: Handle, e: Event): State {
    if h < |s.chans| then s.(chans := s.chans[h := Accept(s.chans[h], e)]) else s
  }

  function AfterReceive(s: State, h: Handle): State
    requires h < |s.chans| && s.chans[h].buffer != []
  {
    var c := s.chans[h];
    s.(chans := s.chans[h := c.(buffer := c.buffer[1..], received := c.received + [c.buffer[0]])])
  }

  // ---------- Registered means open ----------

  predicate HandleOk(s: State, id: JobId, h: Handle) {
    h < |s.chans| && s.chans[h].id == id && !s.chans[h].closed
  }

  predicate Distinct(hs: seq<Handle>) {
    forall i, j :: 0 <= i < j < |hs| ==> hs[i] != hs[j]
  }

  predicate EntryOk(s: State, id: JobId) {
    id in s.registry ==>
      && s.registry[id] != [] && Distinct(s.registry[id])
      && forall h :: h in s.registry[id] ==> HandleOk(s, id, h)
  }

  /**
   * No entry is empty, an entry lists open channels of its own ID without repetition, so no
   * channel is under two IDs, and every open channel is listed.
   */
  ghost predicate RegistryOk(s: State) {
    && (forall id {:trigger EntryOk(s, id)} :: EntryOk(s, id))
    && (forall h: Handle {:trigger IsRegistered(s, h)} :: h < |s.chans| && !s.chans[h].closed ==> IsRegistered(s, h))
  }

  datatype Op =
    | Register(id: JobId)
    | CloseOne(h: Handle)
    | CloseAll
    | Send(h: Handle, event: Event)
    | Receive(h: Handle)

  /** Closing is allowed any number of times; a send goes only to a registered consumer of the event's ID. */
  predicate Legal(s: State, op: Op) {
    match op
    case Register(_) => true
    case CloseOne(h) => h < |s.chans|
    case CloseAll => true
    case Send(h, e) => h in Consumers(s, e.id)
    case Receive(h) => h < |s.chans| && s.chans[h].buffer != []
  }

  function After(s: State, op: Op): State
    requires Legal(s, op)
  {
    match op
    case Register(id) => AfterRegister(s, id)
    case CloseOne(h) => AfterClose(s, h)
    case CloseAll => AfterCloseAll(s)
    case Send(h, e) => AfterOffer(s, h, e)
    case Receive(h) => AfterReceive(s, h)
  }

  ghost predicate LegalRun(ops: seq<Op>)
    decreases |ops|, 0
  {
    ops == [] || (LegalRun(ops[..|ops| - 1]) && Legal(Exec(ops[..|ops| - 1]), ops[|ops| - 1]))
  }

  ghost function Exec(ops: seq<Op>): State
    requires LegalRun(ops)
    decreases |ops|, 1
  {
    if ops == [] then EMPTY else After(Exec(ops[..|ops| - 1]), ops[|ops| - 1])
  }

  lemma WithoutFacts(hs: seq<Handle>, h: Handle)
    requires Distinct(hs)
    ensures Distinct(Without(hs, h)) && h !in Without(hs, h)
    ensures forall x :: x != h ==> (x in Without(hs, h) <==> x in hs)
  {
    var i := Position(hs, h);
    if i < |hs| {
      assert hs == hs[..i] + [h] + hs[i + 1..];
    } else {
      assert hs[..i] == hs;
    }
  }

  lemma RegisterOk(s: State, id: JobId)
    requires RegistryOk(s)
    ensures RegistryOk(AfterRegister(s, id))
  {
    var t := AfterRegister(s, id);
    forall i ensures EntryOk(t, i) {
      assert EntryOk(s, i);
      if i == id && id in s.registry {
        var hs := s.registry[id];
        assert forall k :: 0 <= k < |hs| ==> HandleOk(s, id, hs[k]);
        assert t.registry[i] == hs + [|s.chans|];
      }
    }
    forall h: Handle | h < |t.chans| && !t.chans[h].closed ensures IsRegistered(t, h) {
      if h < |s.chans| { assert IsRegistered(s, h); }
    }
  }

  lemma CloseOk(s: State, h: Handle)
    requires RegistryOk(s) && h < |s.chans|
    ensures RegistryOk(AfterClose(s, h))
  {
    var t := AfterClose(s, h);
    var id := s.chans[h].id;
    assert EntryOk(s, id);
    if id in s.registry { WithoutFacts(s.registry[id], h); }
    forall i ensures EntryOk(t, i) {
      assert EntryOk(s, i);
    }
    forall x: Handle | x < |t.chans| && !t.chans[x].closed ensures IsRegistered(t, x) {
      assert IsRegistered(s, x);
    }
  }

  predicate Registered(registry: map<JobId, seq<Handle>>, id: JobId, h: Handle) {
    id in registry && h in registry[id]
  }

  /** Of all registrations just the channel's own goes. */
  lemma CloseUnregisters(s: State, h: Handle)
    requires RegistryOk(s) && h < |s.chans|
    ensures forall i, x: Handle ::
              Registered(AfterClose(s, h).registry, i, x) <==> x != h && Registered(s.registry, i, x)
  {
    var id := s.chans[h].id;
    assert EntryOk(s, id);
    if id in s.registry { WithoutFacts(s.registry[id], h); }
    forall i, x: Handle
      ensures Registered(AfterClose(s, h).registry, i, x) <==> x != h && Registered(s.registry, i, x)
    {
      assert EntryOk(s, i);
      if i in s.registry && h in s.registry[i] { assert HandleOk(s, i, h); }
    }
  }

  lemma CloseAllOk(s: State)
    requires RegistryOk(s)
    ensures RegistryOk(AfterCloseAll(s))
  {
    var t := AfterCloseAll(s);
    forall h: Handle | h < |t.chans| ensures t.chans[h].closed {
      assert !s.chans[h].closed ==> IsRegistered(s, h);
    }
  }

  /** Sends and receives change neither the registry nor which channels are open. */
  lemma SameShapeOk(s: State, t: State)
    requires RegistryOk(s) && t.registry == s.registry && |t.chans| == |s.chans|
    requires forall h: Handle :: h < |s.chans| ==>
               t.chans[h].id == s.chans[h].id && t.chans[h].closed == s.chans[h].closed
    ensures RegistryOk(t)
  {
    forall i ensures EntryOk(t, i) {
      assert EntryOk(s, i);
    }
    forall h: Handle | h < |t.chans| && !t.chans[h].closed ensures IsRegistered(t, h) {
      assert IsRegistered(s, h);
    }
  }

  lemma AfterOk(s: State, op: Op)
    requires RegistryOk(s) && Legal(s, op)
    ensures RegistryOk(After(s, op))
  {
    match op {
      case Register(id) => RegisterOk(s, id);
      case CloseOne(h) => CloseOk(s, h);
      case CloseAll => CloseAllOk(s);
      case Send(h, e) => SameShapeOk(s, After(s, op));
      case Receive(h) => SameShapeOk(s, After(s, op));
    }
  }

  /**
   * In every reachable state, however often and however late consumers close, the registered
   * channels are exactly the open ones and no entry is empty; so no send hits a closed channel.
   */
  lemma {:induction false} RegisteredMeansOpen(ops: seq<Op>)
    requires LegalRun(ops)
    ensures RegistryOk(Exec(ops))
    ensures forall h: Handle :: h < |Exec(ops).chans| ==> (IsRegistered(Exec(ops), h) <==> !Exec(ops).chans[h].closed)
    ensures forall h: Handle, e :: Legal(Exec(ops), Send(h, e)) ==> h < |Exec(ops).chans| && !Exec(ops).chans[h].closed
  {
    if ops != [] {
      RegisteredMeansOpen(ops[..|ops| - 1]);
      AfterOk(Exec(ops[..|ops| - 1]), ops[|ops| - 1]);
    }
    var s := Exec(ops);
    forall id ensures EntryOk(s, id) {
    }
    forall h: Handle | h < |s.chans| ensures IsRegistered(s, h) <==> !s.chans[h].closed {
      assert EntryOk(s, s.chans[h].id);
    }
    forall h: Handle, e | Legal(s, Send(h, e)) ensures h < |s.chans| && !s.chans[h].closed {
      assert EntryOk(s, e.id);
    }
  }

  function Registrations(ops: seq<Op>): nat {
    if ops == [] then 0 else Registrations(ops[..|ops| - 1]) + (if ops[|ops| - 1].Register? then 1 else 0)
  }

  lemma {:induction false} HandlesAreRegistrations(ops: seq<Op>)
    requires LegalRun(ops)
    ensures |Exec(ops).chans| == Registrations(ops)
  {
    if ops != [] {
      HandlesAreRegistrations(ops[..|ops| - 1]);
    }
  }

  /** The channel's own close function ran, or the client was closed after the channel was made. */
  ghost predicate ClosedBy(ops: seq<Op>, h: Handle) {
    CloseOne(h) in ops || exists k :: 0 <= k < |ops| && ops[k].CloseAll? && h < Registrations(ops[..k])
  }

  lemma ClosedByAppend(ops: seq<Op>, h: Handle)
    requires ops != []
    ensures var before, op := ops[..|ops| - 1], ops[|ops| - 1];
            ClosedBy(ops, h) <==>
              ClosedBy(before, h) || op == CloseOne(h) || (op.CloseAll? && h < Registrations(before))
  {
    var before, op := ops[..|ops| - 1], ops[|ops| - 1];
    assert ops == before + [op];
    assert forall k :: 0 <= k < |before| ==> ops[..k] == before[..k] && ops[k] == before[k];
    if ClosedBy(before, h) && CloseOne(h) !in before {
      var k :| 0 <= k < |before| && before[k].CloseAll? && h < Registrations(before[..k]);
      assert ops[k].CloseAll? && h < Registrations(ops[..k]);
    }
    if op.CloseAll? && h < Registrations(before) {
      assert ops[|ops| - 1].CloseAll? && h < Registrations(ops[..|ops| - 1]);
    }
  }

  /**
   * A close function panics exactly when its channel is closed already, that is when it was
   * called before or the client was closed since the channel was made.
   */
  lemma {:induction false} ClosePanicsIff(ops: seq<Op>, h: Handle)
    requires LegalRun(ops) && h < |Exec(ops).chans|
    ensures Exec(ops).chans[h].closed <==> ClosedBy(ops, h)
  {
    var before, op := ops[..|ops| - 1], ops[|ops| - 1];
    var s := Exec(before);
    ClosedByAppend(ops, h);
    RegisteredMeansOpen(before);
    HandlesAreRegistrations(before);
    if h < |s.chans| {
      ClosePanicsIff(before, h);
    } else {
      NotClosedBeforeMade(before, h);
    }
  }

  lemma {:induction false} NotClosedBeforeMade(ops: seq<Op>, h: Handle)
    requires LegalRun(ops) && Registrations(ops) <= h
    ensures !ClosedBy(ops, h)
  {
    if ops != [] {
      NotClosedBeforeMade(ops[..|ops| - 1], h);
      ClosedByAppend(ops, h);
      HandlesAreRegistrations(ops[..|ops| - 1]);
    }
  }

  // ---------- Bounded FIFO delivery ----------

  lemma {:induction false} LegalPrefix(ops: seq<Op>, k: nat)
    requires LegalRun(ops) && k <= |ops|
    ensures LegalRun(ops[..k])
  {
    if k == |ops| {
      assert ops[..k] == ops;
    } else {
      LegalPrefix(ops[..|ops| - 1], k);
      assert ops[..|ops| - 1][..k] == ops[..k];
    }
  }

  /** The `k`-th action sends to the channel while it buffers fewer than 100 events. */
  ghost predicate FindsRoom(ops: seq<Op>, h: Handle, k: nat) {
    && k < |ops| && ops[k].Send? && ops[k].h == h
    && LegalRun(ops[..k]) && h < |Exec(ops[..k]).chans| && |Exec(ops[..k]).chans[h].buffer| < 100
  }

  ghost function Room(ops: seq<Op>, h: Handle): nat -> bool {
    (k: nat) => FindsRoom(ops, h, k)
  }

  /** `content` is, in order, the events of exactly those sends that found room. */
  ghost predicate SentInOrder(ops: seq<Op>, h: Handle, content: seq<Event>) {
    var ks := Where(|ops|, Room(ops, h));
    |content| == |ks| && forall i :: 0 <= i < |ks| ==> ks[i] < |ops| && ops[ks[i]] == Send(h, content[i])
  }

  lemma RoomBefore(ops: seq<Op>, h: Handle, k: nat)
    requires k < |ops| - 1
    ensures Room(ops, h)(k) == Room(ops[..|ops| - 1], h)(k)
  {
    assert ops[..|ops| - 1][..k] == ops[..k];
  }

  lemma RoomAppend(ops: seq<Op>, h: Handle)
    requires ops != []
    ensures Where(|ops| - 1, Room(ops, h)) == Where(|ops| - 1, Room(ops[..|ops| - 1], h))
  {
    var before := ops[..|ops| - 1];
    forall k: nat | k < |ops| - 1 ensures Room(ops, h)(k) == Room(before, h)(k) {
      RoomBefore(ops, h, k);
    }
    WhereSame(|ops| - 1, Room(ops, h), Room(before, h));
  }

  lemma SentAppend(ops: seq<Op>, h: Handle, content: seq<Event>)
    requires ops != [] && SentInOrder(ops[..|ops| - 1], h, content)
    ensures SentInOrder(ops, h, content + (if FindsRoom(ops, h, |ops| - 1) then [ops[|ops| - 1].event] else []))
  {
    RoomAppend(ops, h);
  }

  lemma AfterStays(s: State, op: Op)
    requires Legal(s, op)
    ensures |s.chans| <= |After(s, op).chans|
  {
  }

  lemma {:induction false} ChannelsStay(ops: seq<Op>, k: nat)
    requires LegalRun(ops) && k <= |ops| && LegalRun(ops[..k])
    ensures |Exec(ops[..k]).chans| <= |Exec(ops).chans|
  {
    if k == |ops| {
      assert ops[..k] == ops;
    } else {
      assert ops[..|ops| - 1][..k] == ops[..k];
      ChannelsStay(ops[..|ops| - 1], k);
      AfterStays(Exec(ops[..|ops| - 1]), ops[|ops| - 1]);
    }
  }

  /** Nothing was sent to a channel before it was made. */
  lemma NoRoomBeforeMade(ops: seq<Op>, h: Handle, k: nat)
    requires LegalRun(ops) && ops != [] && |Exec(ops[..|ops| - 1]).chans| <= h < |Exec(ops).chans|
    ensures !FindsRoom(ops, h, k)
  {
    if FindsRoom(ops, h, k) {
      assert ops[..|ops| - 1][..k] == ops[..k];
      ChannelsStay(ops[..|ops| - 1], k);
    }
  }

  predicate ChannelOk(c: Channel) {
    |c.buffer| <= CAPACITY && forall e :: e in c.received + c.buffer ==> e.id == c.id
  }

  lemma AfterChannelOk(s: State, op: Op, h: Handle)
    requires RegistryOk(s) && Legal(s, op) && h < |s.chans| && ChannelOk(s.chans[h])
    ensures h < |After(s, op).chans| && ChannelOk(After(s, op).chans[h])
  {
    if op.Send? && op.h == h {
      assert EntryOk(s, op.event.id);
    }
  }

  /** What an action does to the events that the channel has delivered or buffers. */
  lemma AfterContent(s: State, op: Op, h: Handle)
    requires Legal(s, op) && h < |s.chans|
    ensures var c, d := s.chans[h], After(s, op).chans[h];
            && d.received + d.buffer
               == c.received + c.buffer + (if op.Send? && op.h == h && |c.buffer| < 100 then [op.event] else [])
            && |d.received| == |c.received| + (if op == Receive(h) then 1 else 0)
  {
  }

  lemma NewChannel(s: State, op: Op, h: Handle)
    requires Legal(s, op) && |s.chans| <= h < |After(s, op).chans|
    ensures op.Register? && After(s, op).chans[h].buffer == [] && After(s, op).chans[h].received == []
  {
  }

  /** How often the consumer received from the channel. */
  function Receipts(ops: seq<Op>, h: Handle): set<nat> {
    set k: nat | k < |ops| && ops[k] == Receive(h)
  }

  lemma ReceiptsAppend(ops: seq<Op>, h: Handle)
    requires ops != []
    ensures |Receipts(ops, h)| == |Receipts(ops[..|ops| - 1], h)| + (if ops[|ops| - 1] == Receive(h) then 1 else 0)
  {
    var last: nat := |ops| - 1;
    assert Receipts(ops, h) == Receipts(ops[..last], h) + (if ops[last] == Receive(h) then {last} else {});
  }

  lemma {:induction false} NoReceiptBeforeMade(ops: seq<Op>, h: Handle)
    requires LegalRun(ops) && |Exec(ops).chans| <= h
    ensures Receipts(ops, h) == {}
  {
    if ops != [] {
      NoReceiptBeforeMade(ops[..|ops| - 1], h);
      ReceiptsAppend(ops, h);
    }
  }

  /** What a channel delivered is what its consumer received; all it holds is of its own ID, at most 100 events. */
  lemma {:induction false} ChannelsOk(ops: seq<Op>, h: Handle)
    requires LegalRun(ops) && h < |Exec(ops).chans|
    ensures ChannelOk(Exec(ops).chans[h]) && |Exec(ops).chans[h].received| == |Receipts(ops, h)|
  {
    var before, op := ops[..|ops| - 1], ops[|ops| - 1];
    ReceiptsAppend(ops, h);
    if h < |Exec(before).chans| {
      ChannelsOk(before, h);
      RegisteredMeansOpen(before);
      AfterChannelOk(Exec(before), op, h);
      AfterContent(Exec(before), op, h);
    } else {
      NewChannel(Exec(before), op, h);
      NoReceiptBeforeMade(before, h);
    }
  }

  lemma {:induction false} ContentIsSent(ops: seq<Op>, h: Handle)
    requires LegalRun(ops) && h < |Exec(ops).chans|
    ensures SentInOrder(ops, h, Exec(ops).chans[h].received + Exec(ops).chans[h].buffer)
  {
    var before, op := ops[..|ops| - 1], ops[|ops| - 1];
    if h < |Exec(before).chans| {
      ContentIsSent(before, h);
      var c := Exec(before).chans[h];
      AfterContent(Exec(before), op, h);
      SentAppend(ops, h, c.received + c.buffer);
    } else {
      NewChannel(Exec(before), op, h);
      forall k: nat | k < |ops| ensures !Room(ops, h)(k) {
        NoRoomBeforeMade(ops, h, k);
      }
      WhereNone(|ops|, Room(ops, h));
    }
  }

  /**
   * Under every interleaving of producers, consumers and closes: what a channel delivered, then
   * what it buffers, is in order the events of exactly those sends to it that came when it buffered
   * fewer than 100. It delivered one event for every receive, all of them of its own ID.
   */
  lemma BoundedFifo(ops: seq<Op>, h: Handle) returns (ks: seq<nat>)
    requires LegalRun(ops) && h < |Exec(ops).chans|
    ensures var c := Exec(ops).chans[h];
            var content := c.received + c.buffer;
            && Increasing(ks) && |ks| == |content|
            && (forall i :: 0 <= i < |ks| ==> ks[i] < |ops| && ops[ks[i]] == Send(h, content[i]))
            && (forall k: nat :: k in ks <==> FindsRoom(ops, h, k))
            && (forall e :: e in content ==> e.id == c.id)
            && |c.buffer| <= 100
            && |c.received| == |set k: nat | k < |ops| && ops[k] == Receive(h)|
  {
    ContentIsSent(ops, h);
    ChannelsOk(ops, h);
    ks := Where(|ops|, Room(ops, h));
    WhereIs(|ops|, Room(ops, h));
    assert Receipts(ops, h) == set k: nat | k < |ops| && ops[k] == Receive(h);
  }

  // ---------- A whole ProducerSendEvents ----------

  /** No channel buffers more than its capacity. */
  predicate BuffersOk(s: State) {
    forall h: Handle :: h < |s.chans| ==> |s.chans[h].buffer| <= CAPACITY
  }

  function SendToEach(s: State, hs: seq<Handle>, e: Event): State {
    if hs == [] then s else AfterOffer(SendToEach(s, hs[..|hs| - 1], e), hs[|hs| - 1], e)
  }

  function SendAll(s: State, events: seq<Event>): State {
    if events == [] then s
    else
      var e := events[|events| - 1];
      SendToEach(SendAll(s, events[..|events| - 1]), Consumers(s, e.id), e)
  }

  /** The IDs of the events that have a consumer, in order. */
  function WithConsumer(s: State, events: seq<Event>): seq<JobId> {
    if events == [] then []
    else
      var e := events[|events| - 1];
      WithConsumer(s, events[..|events| - 1]) + (if Consumers(s, e.id) == [] then [] else [e.id])
  }

  function OfId(events: seq<Event>, id: JobId): seq<Event> {
    if events == [] then []
    else
      var e := events[|events| - 1];
      OfId(events[..|events| - 1], id) + (if e.id == id then [e] else [])
  }

  lemma {:induction false} SendToEachShape(s: State, hs: seq<Handle>, e: Event)
    ensures var t := SendToEach(s, hs, e);
            && t.registry == s.registry && |t.chans| == |s.chans|
            && (BuffersOk(s) ==> BuffersOk(t))
            && forall h: Handle :: h < |s.chans| ==>
                 t.chans[h].id == s.chans[h].id && t.chans[h].closed == s.chans[h].closed
  {
    if hs != [] {
      SendToEachShape(s, hs[..|hs| - 1], e);
    }
  }

  lemma {:induction false} SendToEachChannel(s: State, hs: seq<Handle>, e: Event, h: Handle)
    requires Distinct(hs) && h < |s.chans|
    ensures h < |SendToEach(s, hs, e).chans|
    ensures SendToEach(s, hs, e).chans[h] == if h in hs then Accept(s.chans[h], e) else s.chans[h]
  {
    if hs != [] {
      var front, last := hs[..|hs| - 1], hs[|hs| - 1];
      assert hs == front + [last];
      SendToEachChannel(s, front, e, h);
      SendToEachShape(s, front, e);
    }
  }

  lemma {:induction false} SendAllShape(s: State, events: seq<Event>)
    ensures var t := SendAll(s, events);
            && t.registry == s.registry && |t.chans| == |s.chans|
            && (BuffersOk(s) ==> BuffersOk(t))
            && forall h: Handle :: h < |s.chans| ==>
                 t.chans[h].id == s.chans[h].id && t.chans[h].closed == s.chans[h].closed
  {
    if events != [] {
      var e := events[|events| - 1];
      SendAllShape(s, events[..|events| - 1]);
      SendToEachShape(SendAll(s, events[..|events| - 1]), Consumers(s, e.id), e);
    }
  }

  function HasId(events: seq<Event>, id: JobId): nat -> bool {
    (k: nat) => k < |events| && events[k].id == id
  }

  function HasConsumer(s: State, events: seq<Event>): nat -> bool {
    (k: nat) => k < |events| && events[k].id in s.registry && s.registry[events[k].id] != []
  }

  lemma {:induction false} OfIdPicks(events: seq<Event>, id: JobId)
    ensures var ks := Where(|events|, HasId(events, id));
            && |OfId(events, id)| == |ks|
            && forall i :: 0 <= i < |ks| ==> ks[i] < |events| && OfId(events, id)[i] == events[ks[i]]
  {
    if events != [] {
      var front := events[..|events| - 1];
      OfIdPicks(front, id);
      WhereSame(|front|, HasId(front, id), HasId(events, id));
    }
  }

  lemma {:induction false} WithConsumerPicks(s: State, events: seq<Event>)
    ensures var ks := Where(|events|, HasConsumer(s, events));
            && |WithConsumer(s, events)| == |ks|
            && forall i :: 0 <= i < |ks| ==> ks[i] < |events| && WithConsumer(s, events)[i] == events[ks[i]].id
  {
    if events != [] {
      var front := events[..|events| - 1];
      WithConsumerPicks(s, front);
      WhereSame(|front|, HasConsumer(s, front), HasConsumer(s, events));
    }
  }

  /** `OfId` is the events of the ID, each of them and in order. */
  lemma OwnEventsAre(events: seq<Event>, id: JobId) returns (ks: seq<nat>)
    ensures Increasing(ks) && forall k: nat :: k in ks <==> k < |events| && events[k].id == id
    ensures |OfId(events, id)| == |ks|
    ensures forall i :: 0 <= i < |ks| ==> ks[i] < |events| && OfId(events, id)[i] == events[ks[i]]
  {
    OfIdPicks(events, id);
    ks := Where(|events|, HasId(events, id));
    WhereIs(|events|, HasId(events, id));
  }

  /** `sentIDs` is the IDs of the events that have a consumer, each of them and in order. */
  lemma SentIdsAre(s: State, events: seq<Event>) returns (ks: seq<nat>)
    ensures Increasing(ks)
    ensures forall k: nat :: k in ks <==>
              k < |events| && events[k].id in s.registry && s.registry[events[k].id] != []
    ensures |WithConsumer(s, events)| == |ks|
    ensures forall i :: 0 <= i < |ks| ==> ks[i] < |events| && WithConsumer(s, events)[i] == events[ks[i]].id
  {
    WithConsumerPicks(s, events);
    ks := Where(|events|, HasConsumer(s, events));
    WhereIs(|events|, HasConsumer(s, events));
  }

  /** As many of the events as find room in the channel, from the first on. */
  function Fitting(c: Channel, events: seq<Event>): seq<Event> {
    if |c.buffer| > 100 then []
    else if |events| <= 100 - |c.buffer| then events
    else events[..100 - |c.buffer|]
  }

  /** The channel with the events of its ID added in order until it holds 100. */
  function Delivered(c: Channel, events: seq<Event>): Channel {
    c.(buffer := c.buffer + Fitting(c, OfId(events, c.id)))
  }

  lemma AcceptMore(c: Channel, own: seq<Event>, e: Event)
    requires |c.buffer| <= 100
    ensures Accept(c.(buffer := c.buffer + Fitting(c, own)), e) == c.(buffer := c.buffer + Fitting(c, own + [e]))
  {
  }

  /**
   * A whole `ProducerSendEvents` puts into each registered channel the events of its ID, in the
   * given order, until the channel is full, and touches no other.
   */
  lemma {:induction false} SendAllDelivers(s: State, events: seq<Event>, h: Handle)
    requires RegistryOk(s) && h < |s.chans| && |s.chans[h].buffer| <= 100
    ensures h < |SendAll(s, events).chans|
    ensures IsRegistered(s, h) ==>
              SendAll(s, events).chans[h]
              == s.chans[h].(buffer := s.chans[h].buffer + Fitting(s.chans[h], OfId(events, s.chans[h].id)))
    ensures !IsRegistered(s, h) ==> SendAll(s, events).chans[h] == s.chans[h]
  {
    SendAllShape(s, events);
    if events != [] {
      var front, e := events[..|events| - 1], events[|events| - 1];
      SendAllDelivers(s, front, h);
      SendAllShape(s, front);
      assert EntryOk(s, e.id) && EntryOk(s, s.chans[h].id);
      SendToEachChannel(SendAll(s, front), Consumers(s, e.id), e, h);
      AcceptMore(s.chans[h], OfId(front, s.chans[h].id), e);
    }
  }

  /** A single event goes to every registered channel of its ID that has room, and nowhere else. */
  lemma SendOneDelivers(s: State, e: Event)
    requires RegistryOk(s) && BuffersOk(s)
    ensures var t := SendAll(s, [e]);
            && t.registry == s.registry && |t.chans| == |s.chans|
            && forall h: Handle :: h < |s.chans| ==>
                 t.chans[h] == if s.chans[h].id == e.id && IsRegistered(s, h) && |s.chans[h].buffer| < 100
                               then s.chans[h].(buffer := s.chans[h].buffer + [e]) else s.chans[h]
  {
    SendAllShape(s, [e]);
    forall h: Handle | h < |s.chans|
      ensures SendAll(s, [e]).chans[h] == if s.chans[h].id == e.id && IsRegistered(s, h) && |s.chans[h].buffer| < 100
                                          then s.chans[h].(buffer := s.chans[h].buffer + [e]) else s.chans[h]
    {
      SendAllDelivers(s, [e], h);
      assert [e][..0] == [];
      assert OfId([e], s.chans[h].id) == if e.id == s.chans[h].id then [e] else [];
    }
  }

  /** The call ended inside event `i`, after `j` of its consumers: earlier events are complete. */
  predicate StoppedAt(s: State, events: seq<Event>, i: nat, j: nat, sentIDs: seq<JobId>, t: State) {
    && i < |events| && j < |Consumers(s, events[i].id)|
    && sentIDs == WithConsumer(s, events[..i])
    && t == SendToEach(SendAll(s, events[..i]), Consumers(s, events[i].id)[..j], events[i])
  }

  class MockBatchEventChannelClient {
    var channels: map<JobId, seq<Handle>>
    var chans: seq<Channel>

    function Contents(): State
      reads this
    {
      State(channels, chans)
    }

    ghost predicate Valid()
      reads this
    {
      RegistryOk(Contents()) && BuffersOk(Contents())
    }

    constructor ()
      ensures Valid() && Contents() == EMPTY
    {
      channels := map[];
      chans := [];
    }

    method ConsumerGetChannel(id: JobId) returns (h: Handle)
      requires Valid()
      modifies this
      ensures Valid() && Contents() == AfterRegister(old(Contents()), id)
      ensures h == |old(chans)| && chans == old(chans) + [Channel(id, [], false, [])]
      ensures id in channels && channels[id] == (if id in old(channels) then old(channels)[id] else []) + [h]
      ensures forall i :: i != id ==> (i in channels <==> i in old(channels))
      ensures forall i :: i != id && i in channels ==> channels[i] == old(channels)[i]
    {
      RegisterOk(Contents(), id);
      h := |chans|;
      chans := chans + [Channel(id, [], false, [])];
      channels := channels[id := (if id in channels then channels[id] else []) + [h]];
    }

    /** The close function handed out with channel `h`; closing a closed channel panics. */
    method CloseFn(h: Handle) returns (panicked: bool)
      requires Valid() && h < |chans|
      modifies this
      ensures Valid() && Contents() == AfterClose(old(Contents()), h)
      ensures panicked <==> old(chans)[h].closed
      ensures chans == old(chans)[h := old(chans)[h].(closed := true)]
      ensures forall i, x: Handle :: Registered(channels, i, x) <==> x != h && Registered(old(channels), i, x)
    {
      CloseOk(Contents(), h);
      CloseUnregisters(Contents(), h);
      var id := chans[h].id;
      if id in channels {
        var list := channels[id];
        var i := 0;
        while i < |list| && list[i] != h
          invariant 0 <= i <= |list| && h !in list[..i]
        {
          i := i + 1;
        }
        PositionIs(list, h, i);
        if i < |list| {
          channels := channels[id := list[..i] + list[i + 1..]];
        }
        if |channels[id]| == 0 {
          channels := channels - {id};
        }
      }
      panicked := chans[h].closed;
      chans := chans[h := chans[h].(closed := true)];
      assert Contents() == AfterClose(old(Contents()), h);
    }

    /** The inner loop of ProducerSendEvents: one event to the consumers of its ID, `done` of them served. */
    method SendToConsumers(list: seq<Handle>, e: Event, selects: nat, aborts: nat -> bool)
      returns (done: nat, ok: bool)
      requires Valid() && forall h :: h in list ==> HandleOk(Contents(), e.id, h)
      modifies `chans
      ensures Valid() && done <= |list| && (ok <==> done == |list|)
      ensures (forall k :: !aborts(k)) ==> ok
      ensures Contents() == SendToEach(old(Contents()), list[..done], e)
    {
      ghost var s := Contents();
      done := 0;
      while done < |list|
        invariant done <= |list| && channels == s.registry
        invariant Contents() == SendToEach(s, list[..done], e)
      {
        SendToEachShape(s, list[..done], e);
        if aborts(selects + done) {
          break;
        }
        var h := list[done];
        assert HandleOk(s, e.id, h) && !chans[h].closed;
        assert list[..done + 1][..done] == list[..done];
        chans := chans[h := Accept(chans[h], e)];
        done := done + 1;
      }
      ok := done == |list|;
      SendToEachShape(s, list[..done], e);
      SameShapeOk(s, Contents());
    }

    /**
     * `aborts(k)` says that the k-th select takes the branch of the finished context; with a live
     * context none does.
     */
    method ProducerSendEvents(events: seq<Event>, aborts: nat -> bool) returns (sentIDs: seq<JobId>, ok: bool)
      requires Valid()
      modifies this
      ensures Valid()
      ensures (forall k :: !aborts(k)) ==> ok
      ensures ok ==> Contents() == SendAll(old(Contents()), events) && sentIDs == WithConsumer(old(Contents()), events)
      ensures ok ==> channels == old(channels) && |chans| == |old(chans)|
      ensures ok ==> forall h: Handle :: h < |chans| ==>
                chans[h] == if IsRegistered(old(Contents()), h)
                            then Delivered(old(chans)[h], events) else old(chans)[h]
      ensures !ok ==> exists i, j :: StoppedAt(old(Contents()), events, i, j, sentIDs, Contents())
    {
      ghost var s := Contents();
      sentIDs := [];
      var selects := 0;
      for i := 0 to |events|
        invariant Valid() && channels == s.registry
        invariant Contents() == SendAll(s, events[..i]) && sentIDs == WithConsumer(s, events[..i])
      {
        var e := events[i];
        assert events[..i + 1][..i] == events[..i];
        if e.id in channels && |channels[e.id]| > 0 {
          var list := channels[e.id];
          assert EntryOk(Contents(), e.id);
          var done, sent := SendToConsumers(list, e, selects, aborts);
          SendToEachShape(SendAll(s, events[..i]), list[..done], e);
          if !sent {
            assert StoppedAt(s, events, i, done, sentIDs, Contents());
            return sentIDs, false;
          }
          assert list[..done] == list;
          selects := selects + done;
          sentIDs := sentIDs + [e.id];
        }
      }
      assert events[..|events|] == events;
      SendAllShape(s, events);
      forall h: Handle | h < |s.chans|
        ensures chans[h] == if IsRegistered(s, h) then Delivered(s.chans[h], events) else s.chans[h]
      {
        SendAllDelivers(s, events, h);
      }
      return sentIDs, true;
    }

    /** Closes the channels of one registry entry. */
    method CloseList(list: seq<Handle>) returns (panicked: bool)
      requires Distinct(list) && forall h :: h in list ==> h < |chans| && !chans[h].closed
      modifies `chans
      ensures !panicked && |chans| == |old(chans)|
      ensures forall h: Handle :: h < |chans| ==>
                chans[h] == if h in list then old(chans)[h].(closed := true) else old(chans)[h]
    {
      panicked := false;
      for i := 0 to |list|
        invariant !panicked && |chans| == |old(chans)|
        invariant forall h: Handle :: h < |chans| ==>
                    chans[h] == if h in list[..i] then old(chans)[h].(closed := true) else old(chans)[h]
      {
        var h := list[i];
        assert h in list && h !in list[..i];
        panicked := panicked || chans[h].closed;
        chans := chans[h := chans[h].(closed := true)];
        assert list[..i + 1] == list[..i] + [h];
      }
      assert list[..|list|] == list;
    }

    /** Closes every registered channel; none of them is closed already, so nothing panics. */
    method Close() returns (panicked: bool)
      requires Valid()
      modifies this
      ensures Valid() && Contents() == AfterCloseAll(old(Contents()))
      ensures !panicked && channels == map[] && |chans| == |old(chans)|
      ensures forall h: Handle :: h < |chans| ==> chans[h] == old(chans)[h].(closed := true)
    {
      ghost var s := Contents();
      CloseAllOk(s);
      panicked := false;
      var todo := channels.Keys;
      while todo != {}
        invariant channels == s.registry && todo <= channels.Keys
        invariant !panicked && |chans| == |s.chans|
        invariant forall h: Handle :: h < |chans| ==>
                    chans[h] == if s.chans[h].id !in todo && IsRegistered(s, h)
                                then s.chans[h].(closed := true) else s.chans[h]
        decreases |todo|
      {
        var id :| id in todo;
        assert EntryOk(s, id);
        assert forall h :: h in channels[id] ==> HandleOk(s, id, h);
        panicked := CloseList(channels[id]);
        todo := todo - {id};
      }
      channels := map[];
      assert Contents().chans == AfterCloseAll(s).chans;
    }
  }

  lemma PositionIs(hs: seq<Handle>, h: Handle, i: nat)
    requires i <= |hs| && h !in hs[..i] && (i < |hs| ==> hs[i] == h)
    ensures Position(hs, h) == i
  {
    var p := Position(hs, h);
    forall k | 0 <= k < i ensures hs[k] != h {
      assert hs[..i][k] == hs[k];
    }
    forall k | 0 <= k < p ensures hs[k] != h {
      assert hs[..p][k] == hs[k];
    }
  }
}
