/**
 The mailbox as a value: what each operation of
 crates/byteflow/src/scheduler/mailbox/{mod,queue}.rs computes, and the proof that
 any run of operations is a run of an ideal mailbox that always hands over the
 oldest pending hop matching the filter in force.
 */
module MailboxSpec {
  import opened Wrappers
  import opened Values

  // ----- flows as the mailbox sees them -----

  type FlowId = nat

  /** What the scheduler does once a parked sender's hop is admitted. */
  datatype PendingSend =
    | FireAndForget
    | AskReply(dest: u8, requestId: u64, target: u64, timeout: Option<nat>)

  /** A flow; `writes` logs every value the scheduler stored in a register on its behalf. */
  datatype Flow = Flow(
    id: FlowId,
    lastDest: Option<u8>,
    pendingSend: Option<PendingSend>,
    pendingMessage: Option<Value>,
    writes: seq<(u8, Value)>)

  // ----- wait filters -----

  datatype WaitFilter =
    | AnyHop
    | Tag(tag: u16)
    | Correlation(requestId: u64, sender: Option<u64>)
    | TaggedCorrelation(tag: u16, requestId: u64)

  predicate Matches(f: WaitFilter, v: Value) {
    match f
    case AnyHop => true
    case Tag(t) => v.Hop? && v.msg.tag == t
    case Correlation(rid, s) => v.Hop? && v.msg.requestId == rid && (s.Some? ==> v.msg.sender == s.value)
    case TaggedCorrelation(t, rid) => v.Hop? && v.msg.tag == t && v.msg.requestId == rid
  }

  /** What a filter asks of a hop, one field at a time; `None` asks nothing. */
  datatype Demands = Demands(tag: Option<u16>, requestId: Option<u64>, sender: Option<u64>)

  function DemandsOf(f: WaitFilter): Demands {
    match f
    case AnyHop => Demands(None, None, None)
    case Tag(t) => Demands(Some(t), None, None)
    case Correlation(rid, s) => Demands(None, Some(rid), s)
    case TaggedCorrelation(t, rid) => Demands(Some(t), Some(rid), None)
  }

  predicate Agrees<T(==)>(wanted: Option<T>, got: T) {
    wanted.None? || wanted.value == got
  }

  /**
   A filter matches the messages that meet its demands on tag, request id and sender; only
   `AnyHop` matches anything else, and a filter of tag and request id is both filters at once.
   */
  lemma MatchesMeans(f: WaitFilter, v: Value, t: u16, rid: u64)
    ensures v.Hop? ==>
              var d := DemandsOf(f);
              (Matches(f, v) <==> Agrees(d.tag, v.msg.tag) && Agrees(d.requestId, v.msg.requestId)
                                  && Agrees(d.sender, v.msg.sender))
    ensures !v.Hop? ==> (Matches(f, v) <==> f == AnyHop)
    ensures Matches(TaggedCorrelation(t, rid), v) <==> Matches(Tag(t), v) && Matches(Correlation(rid, None), v)
  {
  }

  /** `receive_filter`: the filter of a receive instruction. */
  function FilterFor(tag: Option<u16>, requestId: Option<u64>): WaitFilter {
    match (tag, requestId)
    case (Some(t), Some(rid)) => TaggedCorrelation(t, rid)
    case (Some(t), None) => Tag(t)
    case (None, Some(rid)) => Correlation(rid, None)
    case (None, None) => AnyHop
  }

  /** A receive gets the messages with the tag and the request id it names, from anybody. */
  lemma FilterForMeans(tag: Option<u16>, requestId: Option<u64>, m: Message)
    ensures Matches(FilterFor(tag, requestId), Hop(m)) <==> Agrees(tag, m.tag) && Agrees(requestId, m.requestId)
  {
  }

  /** Index of the first matching hop, or `|items|`. */
  function FirstMatch(items: seq<Value>, f: WaitFilter): (i: nat)
    ensures i <= |items|
    ensures i < |items| ==> Matches(f, items[i])
    ensures forall j :: 0 <= j < i ==> !Matches(f, items[j])
  {
    if items == [] || Matches(f, items[0]) then 0 else 1 + FirstMatch(items[1..], f)
  }

  ghost predicate NoneMatches(items: seq<Value>, f: WaitFilter) {
    forall j :: 0 <= j < |items| ==> !Matches(f, items[j])
  }

  // ----- the queue -----

  datatype Policy = Reject | DropNewest | DropOldest
  datatype FullReason = MessageLimit | ByteLimit
  datatype Config = Config(limit: nat, byteLimit: nat, policy: Policy)

  /** The ranges enforced by `MailboxCapacity::new` and `MailboxBytes::new`. */
  predicate ValidConfig(c: Config) {
    && 1 <= c.limit <= 0x10_0000
    && 0x400 <= c.byteLimit <= 0x4000_0000
  }

  datatype Queue = Queue(items: seq<Value>, bytes: nat)

  function TotalSize(items: seq<Value>): nat {
    if items == [] then 0 else MemorySize(items[0]) + TotalSize(items[1..])
  }

  /** The byte counter has not drifted from the hops it stands for. */
  ghost predicate Exact(q: Queue) {
    q.bytes == TotalSize(q.items)
  }

  predicate IsFull(q: Queue, c: Config) {
    |q.items| >= c.limit
  }

  predicate WouldExceed(q: Queue, cost: nat, c: Config) {
    SatAdd(q.bytes, cost) > c.byteLimit
  }

  predicate Fits(q: Queue, cost: nat, c: Config) {
    !IsFull(q, c) && !WouldExceed(q, cost, c)
  }

  function PushBack(q: Queue, v: Value): Queue {
    Queue(q.items + [v], SatAdd(q.bytes, MemorySize(v)))
  }

  function RemoveAt(q: Queue, i: nat): Queue
    requires i < |q.items|
  {
    Queue(q.items[..i] + q.items[i + 1..], SatSub(q.bytes, MemorySize(q.items[i])))
  }

  function TakeFrom(q: Queue, f: WaitFilter): (Queue, Option<Value>) {
    var i := FirstMatch(q.items, f);
    if i == |q.items| then (q, None) else (RemoveAt(q, i), Some(q.items[i]))
  }

  /** Pop from the front until the hop fits or nothing is left. */
  function EvictFor(q: Queue, cost: nat, c: Config): Queue
    decreases |q.items|
  {
    if Fits(q, cost, c) || q.items == [] then q else EvictFor(RemoveAt(q, 0), cost, c)
  }

  datatype Enqueued =
    | Accepted(evicted: bool)
    | Discarded
    | Refused(reason: FullReason)

  function Enqueue(q: Queue, v: Value, policy: Policy, c: Config): (Queue, Enqueued) {
    var cost := MemorySize(v);
    if Fits(q, cost, c) then (PushBack(q, v), Accepted(false))
    else
      match policy
      case Reject => (q, Refused(if IsFull(q, c) then MessageLimit else ByteLimit))
      case DropNewest => (q, Discarded)
      case DropOldest =>
        var e := EvictFor(q, cost, c);
        if WouldExceed(e, cost, c) then (e, Refused(ByteLimit))
        else (PushBack(e, v), Accepted(|e.items| < |q.items|))
  }

  /** How many hops an enqueue evicts. */
  function Evictions(q: Queue, cost: nat, policy: Policy, c: Config): nat {
    if policy.DropOldest? then SatSub(|q.items|, |EvictFor(q, cost, c).items|) else 0
  }

  // ----- byte accounting -----

  /** How deep messages are nested in a value, and the bytes at the bottom. */
  function Levels(v: Value): nat {
    match v case Hop(m) => 1 + Levels(m.payload) case _ => 0
  }

  function BytesIn(v: Value): seq<u8> {
    match v
    case Str(s) => s
    case Bytes(d) => d
    case Hop(m) => BytesIn(m.payload)
    case _ => []
  }

  /** A hop is charged for every level of nesting and every byte. */
  lemma {:induction false} ChargeMeans(v: Value)
    ensures MemorySize(v) == VALUE_SIZE * (1 + Levels(v)) + |BytesIn(v)|
  {
    if v.Hop? {
      ChargeMeans(v.msg.payload);
    }
  }

  lemma {:induction false} TotalSizeAppend(a: seq<Value>, b: seq<Value>)
    ensures TotalSize(a + b) == TotalSize(a) + TotalSize(b)
  {
    if a == [] {
      assert a + b == b;
    } else {
      assert (a + b)[1..] == a[1..] + b;
      TotalSizeAppend(a[1..], b);
    }
  }

  lemma TotalSizeRemove(items: seq<Value>, i: nat)
    requires i < |items|
    ensures TotalSize(items) == TotalSize(items[..i] + items[i + 1..]) + MemorySize(items[i])
  {
    var a, b, rest := items[..i], items[i..], items[i + 1..];
    assert items == a + b && b[1..] == rest;
    TotalSizeAppend(a, b);
    TotalSizeAppend(a, rest);
  }

  /** Removing any hop keeps the counter exact. */
  lemma RemoveKeepsExact(q: Queue, i: nat)
    requires Exact(q) && i < |q.items|
    ensures Exact(RemoveAt(q, i))
  {
    TotalSizeRemove(q.items, i);
  }

  lemma TakeKeepsExact(q: Queue, f: WaitFilter)
    requires Exact(q)
    ensures Exact(TakeFrom(q, f).0)
  {
    var i := FirstMatch(q.items, f);
    if i < |q.items| {
      RemoveKeepsExact(q, i);
    }
  }

  lemma {:induction false} EvictIsSuffix(q: Queue, cost: nat, c: Config)
    requires Exact(q)
    ensures var e := EvictFor(q, cost, c);
            && Exact(e)
            && |e.items| <= |q.items|
            && e.items == q.items[|q.items| - |e.items|..]
            && (Fits(e, cost, c) || e.items == [])
    decreases |q.items|
  {
    hide Fits, TotalSize, MemorySize;
    if !Fits(q, cost, c) && q.items != [] {
      var r := RemoveAt(q, 0);
      RemoveKeepsExact(q, 0);
      EvictIsSuffix(r, cost, c);
      assert r.items == q.items[1..];
      var k := |r.items| - |EvictFor(r, cost, c).items|;
      assert r.items[k..] == q.items[k + 1..];
    }
  }

  /**
   Eviction drops the shortest prefix after which the hop fits: every longer
   suffix would not have fitted. When no suffix fits, it drops everything.
   */
  lemma {:induction false} EvictsShortestPrefix(q: Queue, cost: nat, c: Config, j: nat)
    requires Exact(q) && j + |EvictFor(q, cost, c).items| < |q.items|
    ensures !Fits(Queue(q.items[j..], TotalSize(q.items[j..])), cost, c)
    decreases j
  {
    if j == 0 {
      assert q.items[0..] == q.items;
    } else {
      var r := RemoveAt(q, 0);
      RemoveKeepsExact(q, 0);
      EvictsShortestPrefix(r, cost, c, j - 1);
      assert r.items == q.items[1..];
      assert r.items[j - 1..] == q.items[j..];
    }
  }

  /** With an exact counter inside the budget, no enqueue ever saturates or drifts. */
  lemma EnqueueKeepsExact(q: Queue, v: Value, policy: Policy, c: Config)
    requires Exact(q) && ValidConfig(c)
    ensures Exact(Enqueue(q, v, policy, c).0)
  {
    var e := EvictFor(q, MemorySize(v), c);
    EvictIsSuffix(q, MemorySize(v), c);
    TotalSizeAppend(q.items, [v]);
    TotalSizeAppend(e.items, [v]);
  }

  /** A user hop never leaves the queue above either bound unless it was above already. */
  lemma EnqueueRespectsBounds(q: Queue, v: Value, policy: Policy, c: Config)
    requires Exact(q) && ValidConfig(c)
    ensures var (q', r) := Enqueue(q, v, policy, c);
            r.Accepted? ==> |q'.items| <= c.limit && TotalSize(q'.items) <= c.byteLimit
    ensures var (q', r) := Enqueue(q, v, policy, c);
            !r.Accepted? ==> |q'.items| <= |q.items| && TotalSize(q'.items) <= TotalSize(q.items)
  {
    hide TotalSize, EvictFor, MemorySize;
    EvictionShrinks(q, MemorySize(v), c);
    EnqueueKeepsExact(q, v, policy, c);
  }

  lemma EvictionShrinks(q: Queue, cost: nat, c: Config)
    requires Exact(q)
    ensures var e := EvictFor(q, cost, c);
            && Exact(e) && |e.items| <= |q.items| && TotalSize(e.items) <= TotalSize(q.items)
            && (e.items == [] || Fits(e, cost, c))
  {
    hide EvictFor;
    var e := EvictFor(q, cost, c);
    EvictIsSuffix(q, cost, c);
    var k := |q.items| - |e.items|;
    assert q.items == q.items[..k] + q.items[k..];
    TotalSizeAppend(q.items[..k], q.items[k..]);
  }

  /**
   `Reject` refuses exactly when a bound is really hit, and names the hop bound
   first; `DropOldest` refuses exactly the hops larger than the whole budget.
   */
  lemma RefusedIffBoundHit(q: Queue, v: Value, c: Config)
    requires Exact(q) && ValidConfig(c)
    ensures Enqueue(q, v, Reject, c).1.Refused? <==>
              |q.items| >= c.limit || TotalSize(q.items) + MemorySize(v) > c.byteLimit
    ensures Enqueue(q, v, Reject, c).1 == Refused(MessageLimit) <==> |q.items| >= c.limit
    ensures Enqueue(q, v, DropOldest, c).1.Refused? <==> MemorySize(v) > c.byteLimit
    ensures MemorySize(v) > c.byteLimit ==> Enqueue(q, v, DropOldest, c).0 == Queue([], 0)
    ensures !Enqueue(q, v, DropNewest, c).1.Refused?
  {
    hide EvictFor, TotalSize, MemorySize;
    OnlyOversizedEvictsAll(q, MemorySize(v), c);
  }

  /** Eviction makes room for anything within the budget and empties the queue for anything beyond it. */
  lemma OnlyOversizedEvictsAll(q: Queue, cost: nat, c: Config)
    requires Exact(q) && ValidConfig(c)
    ensures WouldExceed(EvictFor(q, cost, c), cost, c) <==> cost > c.byteLimit
    ensures cost > c.byteLimit ==> EvictFor(q, cost, c) == Queue([], 0)
  {
    hide EvictFor;
    var e := EvictFor(q, cost, c);
    EvictIsSuffix(q, cost, c);
    if e.items == [] {
      assert e == Queue([], 0);
    }
  }

  /** Both bounds have room for the hop. */
  ghost predicate HasRoom(items: seq<Value>, v: Value, c: Config) {
    |items| < c.limit && TotalSize(items) + MemorySize(v) <= c.byteLimit
  }

  /**
   Every enqueue, on the hops themselves. A hop there is room for joins the end under every
   policy. Otherwise `Reject` and `DropNewest` leave the queue alone, and `DropOldest` drops
   the fewest of the oldest hops that make room, or all of them in vain for a hop larger
   than the whole budget.
   */
  lemma EnqueueMeans(q: Queue, v: Value, policy: Policy, c: Config)
    requires Exact(q) && ValidConfig(c)
    ensures var (q', r) := Enqueue(q, v, policy, c);
            if HasRoom(q.items, v, c) then q'.items == q.items + [v] && r == Accepted(false)
            else if policy.Reject? then
              q' == q && r == Refused(if |q.items| >= c.limit then MessageLimit else ByteLimit)
            else if policy.DropNewest? then q' == q && r == Discarded
            else if MemorySize(v) > c.byteLimit then q'.items == [] && r == Refused(ByteLimit)
            else
              && r == Accepted(true)
              && exists k :: 0 < k <= |q.items| && DropsFewest(q.items, v, c, k) && q'.items == q.items[k..] + [v]
  {
    var cost := MemorySize(v);
    FitsIsRoom(q, v, c);
    if policy.DropOldest? && !HasRoom(q.items, v, c) {
      OnlyOversizedEvictsAll(q, cost, c);
      if cost <= c.byteLimit {
        EvictionDropsFewest(q, v, c);
      }
    }
  }

  lemma FitsIsRoom(q: Queue, v: Value, c: Config)
    requires Exact(q) && ValidConfig(c)
    ensures Fits(q, MemorySize(v), c) <==> HasRoom(q.items, v, c)
  {
  }

  /** Without its `k` oldest hops the queue has room, and not with one of them more. */
  ghost predicate DropsFewest(items: seq<Value>, v: Value, c: Config, k: nat)
    requires k <= |items|
  {
    HasRoom(items[k..], v, c) && forall j :: 0 <= j < k ==> !HasRoom(items[j..], v, c)
  }

  lemma EvictionDropsFewest(q: Queue, v: Value, c: Config)
    requires Exact(q) && ValidConfig(c) && !HasRoom(q.items, v, c) && MemorySize(v) <= c.byteLimit
    ensures var e := EvictFor(q, MemorySize(v), c);
            && |e.items| < |q.items|
            && e.items == q.items[|q.items| - |e.items|..]
            && DropsFewest(q.items, v, c, |q.items| - |e.items|)
            && !WouldExceed(e, MemorySize(v), c)
  {
    hide EvictFor, MemorySize, Fits, WouldExceed;
    var e := EvictFor(q, MemorySize(v), c);
    EvictIsSuffix(q, MemorySize(v), c);
    OnlyOversizedEvictsAll(q, MemorySize(v), c);
    FitsIsRoom(q, v, c);
    FitsIsRoom(e, v, c);
    var k := |q.items| - |e.items|;
    assert HasRoom(e.items, v, c);
    forall j | 0 <= j < k ensures !HasRoom(q.items[j..], v, c) {
      EvictsShortestPrefix(q, MemorySize(v), c, j);
      FitsIsRoom(Queue(q.items[j..], TotalSize(q.items[j..])), v, c);
    }
  }

  // ----- the mailbox -----

  datatype Waiting = Waiting(flow: Flow, message: Value)

  /** `parks` counts park installs without wrapping; `epoch` is the 64-bit counter the code keeps. */
  datatype Mailbox = Mailbox(
    queue: Queue,
    parked: Option<Flow>,
    filter: WaitFilter,
    epoch: u64,
    parks: nat,
    waiting: seq<Waiting>,
    closed: bool)

  const EPOCHS: nat := 0x1_0000_0000_0000_0000

  function EmptyMailbox(): Mailbox {
    Mailbox(Queue([], 0), None, AnyHop, 0, 0, [], false)
  }

  datatype Delivery =
    | Queued
    | QueuedDropOldest
    | DroppedNewest
    | Handoff(flow: Flow)
    | Full(reason: FullReason)

  function Deliver(r: Enqueued): Delivery {
    match r
    case Accepted(evicted) => if evicted then QueuedDropOldest else Queued
    case Discarded => DroppedNewest
    case Refused(reason) => Full(reason)
  }

  function Push(m: Mailbox, v: Value, c: Config): (Mailbox, Delivery) {
    if m.parked.Some? && Matches(m.filter, v) then
      (m.(parked := None, filter := AnyHop), Handoff(m.parked.value))
    else
      var (q, r) := Enqueue(m.queue, v, c.policy, c);
      (m.(queue := q), Deliver(r))
  }

  /** System hops ignore both bounds. */
  function PushSystem(m: Mailbox, v: Value): (Mailbox, Delivery) {
    if m.parked.Some? && Matches(m.filter, v) then
      (m.(parked := None, filter := AnyHop), Handoff(m.parked.value))
    else
      (m.(queue := PushBack(m.queue, v)), Queued)
  }

  function TryPop(m: Mailbox, f: WaitFilter): (Mailbox, Option<Value>) {
    var (q, v) := TakeFrom(m.queue, f);
    (m.(queue := q), v)
  }

  datatype ParkResult = Installed(epoch: u64) | Raced(flow: Flow)

  function Park(m: Mailbox, flow: Flow, f: WaitFilter): (Mailbox, ParkResult) {
    var (q, v) := TakeFrom(m.queue, f);
    if v.Some? then (m.(queue := q), Raced(flow.(pendingMessage := v)))
    else
      var e := (m.epoch + 1) % EPOCHS;
      (m.(epoch := e, parks := m.parks + 1, filter := f, parked := Some(flow)), Installed(e))
  }

  /** `v` is the oldest hop that matches, and `rest` are the others in their order. */
  ghost predicate OldestTaken(items: seq<Value>, f: WaitFilter, v: Value, rest: seq<Value>) {
    exists i :: 0 <= i < |items| && TakenAt(items, f, v, rest, i)
  }

  ghost predicate TakenAt(items: seq<Value>, f: WaitFilter, v: Value, rest: seq<Value>, i: nat)
    requires i < |items|
  {
    && v == items[i] && Matches(f, v) && NoneMatches(items[..i], f)
    && rest == items[..i] + items[i + 1..]
  }

  /** Popping under a filter takes the oldest match, or nothing if there is none. */
  lemma TryPopMeans(m: Mailbox, f: WaitFilter)
    ensures var (m', v) := TryPop(m, f);
            && m' == m.(queue := m'.queue)
            && (v.None? <==> NoneMatches(m.queue.items, f)) && (v.None? ==> m' == m)
            && (v.Some? ==> OldestTaken(m.queue.items, f, v.value, m'.queue.items))
  {
    hide Matches;
    var i := FirstMatch(m.queue.items, f);
    if i < |m.queue.items| {
      assert TakenAt(m.queue.items, f, m.queue.items[i], m.queue.items[..i] + m.queue.items[i + 1..], i);
    }
  }

  /** So does parking, which installs the flow if there is none. */
  lemma ParkMeans(m: Mailbox, flow: Flow, f: WaitFilter)
    ensures var (m', r) := Park(m, flow, f);
            && (r.Installed? <==> NoneMatches(m.queue.items, f))
            && (r.Installed? ==> m'.parked == Some(flow) && m'.filter == f && m'.queue == m.queue)
            && (r.Raced? ==>
                  && m' == m.(queue := m'.queue)
                  && exists v ::
                       && OldestTaken(m.queue.items, f, v, m'.queue.items)
                       && r.flow == flow.(pendingMessage := Some(v)))
  {
    hide Matches, TakeFrom, OldestTaken;
    TryPopMeans(m, f);
  }

  function TakeParkedAt(m: Mailbox, epoch: u64): (Mailbox, Option<Flow>) {
    if m.epoch != epoch || m.parked.None? then (m, None)
    else (m.(parked := None, filter := AnyHop), m.parked)
  }

  function TakeParked(m: Mailbox): (Mailbox, Option<Flow>) {
    (m.(parked := None, filter := AnyHop), m.parked)
  }

  function Close(m: Mailbox): (Mailbox, seq<Flow>) {
    (m.(closed := true, waiting := []), seq(|m.waiting|, i requires 0 <= i < |m.waiting| => m.waiting[i].flow))
  }

  /** `false` hands the sender back: the inbox is closed. */
  function ParkSender(m: Mailbox, flow: Flow, v: Value): (Mailbox, bool) {
    if m.closed then (m, false) else (m.(waiting := m.waiting + [Waiting(flow, v)]), true)
  }

  function AdmitSender(m: Mailbox, c: Config): (Mailbox, Option<Flow>) {
    if m.closed || m.waiting == [] then (m, None)
    else
      var (q, r) := Enqueue(m.queue, m.waiting[0].message, Reject, c);
      if r.Refused? then (m, None)
      else (m.(queue := q, waiting := m.waiting[1..]), Some(m.waiting[0].flow))
  }

  /**
   A waiting sender is admitted exactly when the inbox is open and there is room for the
   oldest one's hop, which joins the end of the queue; the others keep their turn.
   */
  lemma AdmitMeans(m: Mailbox, c: Config)
    requires Exact(m.queue) && ValidConfig(c)
    ensures var (m', admitted) := AdmitSender(m, c);
            if !m.closed && m.waiting != [] && HasRoom(m.queue.items, m.waiting[0].message, c) then
              && admitted == Some(m.waiting[0].flow)
              && [m.waiting[0]] + m'.waiting == m.waiting
              && m'.queue.items == m.queue.items + [m.waiting[0].message]
            else admitted == None && m' == m
  {
    hide Enqueue;
    if m.waiting != [] {
      EnqueueMeans(m.queue, m.waiting[0].message, Reject, c);
    }
  }

  function WaiterIndex(ws: seq<Waiting>, id: FlowId): (i: nat)
    ensures i <= |ws|
    ensures i < |ws| ==> ws[i].flow.id == id
    ensures forall j :: 0 <= j < i ==> ws[j].flow.id != id
  {
    if ws == [] || ws[0].flow.id == id then 0 else 1 + WaiterIndex(ws[1..], id)
  }

  function TakeSender(m: Mailbox, id: FlowId): (Mailbox, Option<Flow>) {
    var i := WaiterIndex(m.waiting, id);
    if i == |m.waiting| then (m, None)
    else (m.(waiting := m.waiting[..i] + m.waiting[i + 1..]), Some(m.waiting[i].flow))
  }

  // ----- runs -----

  datatype Op =
    | OpPush(hop: Value)
    | OpSystem(hop: Value)
    | OpPop(filter: WaitFilter)
    | OpPark(flow: Flow, filter: WaitFilter)
    | OpTimeout(epoch: u64)
    | OpTakeParked
    | OpClose
    | OpParkSender(flow: Flow, hop: Value)
    | OpAdmit
    | OpTakeSender(id: FlowId)

  /** Parking and admitting are done by the running owner, so nobody is parked then. */
  predicate Enabled(m: Mailbox, op: Op) {
    && (op.OpPark? || op.OpAdmit? ==> m.parked.None?)
    && (op.OpSystem? ==> m.queue.bytes + MemorySize(op.hop) <= USIZE_MAX)
  }

  function Apply(m: Mailbox, op: Op, c: Config): Mailbox {
    match op
    case OpPush(v) => Push(m, v, c).0
    case OpSystem(v) => PushSystem(m, v).0
    case OpPop(f) => TryPop(m, f).0
    case OpPark(flow, f) => Park(m, flow, f).0
    case OpTimeout(e) => TakeParkedAt(m, e).0
    case OpTakeParked => TakeParked(m).0
    case OpClose => Close(m).0
    case OpParkSender(flow, v) => ParkSender(m, flow, v).0
    case OpAdmit => AdmitSender(m, c).0
    case OpTakeSender(id) => TakeSender(m, id).0
  }

  function Run(m: Mailbox, ops: seq<Op>, c: Config): Mailbox
    decreases |ops|
  {
    if ops == [] then m else Run(Apply(m, ops[0], c), ops[1..], c)
  }

  predicate RunEnabled(m: Mailbox, ops: seq<Op>, c: Config)
    decreases |ops|
  {
    ops == [] || (Enabled(m, ops[0]) && RunEnabled(Apply(m, ops[0], c), ops[1..], c))
  }

  // ----- the ideal mailbox -----

  datatype Status = Pending | Delivered | Evicted

  /** A hop that was accepted, and what became of it. */
  datatype Record = Record(hop: Value, status: Status)

  function PendingHops(log: seq<Record>): seq<Value> {
    if log == [] then []
    else if log[0].status.Pending? then [log[0].hop] + PendingHops(log[1..])
    else PendingHops(log[1..])
  }

  /** Deliver the oldest pending hop that matches; nothing happens when none does. */
  function DeliverOldest(log: seq<Record>, f: WaitFilter): (seq<Record>, Option<Value>) {
    if log == [] then ([], None)
    else if log[0].status.Pending? && Matches(f, log[0].hop) then
      ([log[0].(status := Delivered)] + log[1..], Some(log[0].hop))
    else
      var (rest, v) := DeliverOldest(log[1..], f);
      ([log[0]] + rest, v)
  }

  function Accept(log: seq<Record>, v: Value): seq<Record> {
    log + [Record(v, Pending)]
  }

  /** Evict the `n` oldest pending hops. */
  function EvictOldest(log: seq<Record>, n: nat): seq<Record> {
    if log == [] || n == 0 then log
    else if log[0].status.Pending? then [log[0].(status := Evicted)] + EvictOldest(log[1..], n - 1)
    else [log[0]] + EvictOldest(log[1..], n)
  }

  /** The hop an operation hands to a flow, if any. */
  function Handed(m: Mailbox, op: Op, c: Config): Option<Value> {
    match op
    case OpPush(v) => if Push(m, v, c).1.Handoff? then Some(v) else None
    case OpSystem(v) => if PushSystem(m, v).1.Handoff? then Some(v) else None
    case OpPop(f) => TryPop(m, f).1
    case OpPark(flow, f) => (match Park(m, flow, f).1 case Raced(r) => r.pendingMessage case Installed(_) => None)
    case _ => None
  }

  /** The filter under which an operation hands over a hop. */
  function InForce(m: Mailbox, op: Op): WaitFilter {
    match op
    case OpPop(f) => f
    case OpPark(_, f) => f
    case _ => m.filter
  }

  /** The hop an operation adds to the log, if any. */
  function Added(m: Mailbox, op: Op, c: Config): Option<Value> {
    match op
    case OpPush(v) => if Push(m, v, c).1.DroppedNewest? || Push(m, v, c).1.Full? then None else Some(v)
    case OpSystem(v) => Some(v)
    case OpAdmit => if AdmitSender(m, c).1.Some? then Some(m.waiting[0].message) else None
    case _ => None
  }

  /** How many hops an operation evicts. */
  function Dropped(m: Mailbox, op: Op, c: Config): nat {
    if op.OpPush? && !Push(m, op.hop, c).1.Handoff? then Evictions(m.queue, MemorySize(op.hop), c.policy, c) else 0
  }

  /** The log once the operation has evicted and accepted, before it delivers. */
  function Offered(log: seq<Record>, m: Mailbox, op: Op, c: Config): seq<Record> {
    var kept := EvictOldest(log, Dropped(m, op, c));
    if Added(m, op, c).Some? then Accept(kept, Added(m, op, c).value) else kept
  }

  /** Whether the operation is an occasion to deliver: somebody is asking for a hop. */
  predicate Asking(m: Mailbox, op: Op) {
    op.OpPop? || op.OpPark? || ((op.OpPush? || op.OpSystem?) && m.parked.Some?)
  }

  /** One step of the ideal mailbox: evict, accept, then deliver the oldest match to whoever asks. */
  function IdealStep(log: seq<Record>, m: Mailbox, op: Op, c: Config): seq<Record> {
    var offered := Offered(log, m, op, c);
    if Asking(m, op) then DeliverOldest(offered, InForce(m, op)).0 else offered
  }

  function IdealRun(log: seq<Record>, m: Mailbox, ops: seq<Op>, c: Config): seq<Record>
    decreases |ops|
  {
    if ops == [] then log
    else IdealRun(IdealStep(log, m, ops[0], c), Apply(m, ops[0], c), ops[1..], c)
  }

  /** A parked flow has not missed a hop it waits for. */
  ghost predicate NothingMissed(m: Mailbox) {
    m.parked.Some? ==> NoneMatches(m.queue.items, m.filter)
  }

  ghost predicate Refines(m: Mailbox, log: seq<Record>) {
    && m.queue.items == PendingHops(log)
    && Exact(m.queue)
    && m.epoch == m.parks % EPOCHS
    && NothingMissed(m)
  }

  // ----- the ideal mailbox on its pending hops -----

  lemma {:induction false} PendingAppend(a: seq<Record>, b: seq<Record>)
    ensures PendingHops(a + b) == PendingHops(a) + PendingHops(b)
  {
    if a == [] {
      assert a + b == b;
    } else {
      var ab := a + b;
      assert ab[0] == a[0] && ab[1..] == a[1..] + b;
      PendingAppend(a[1..], b);
    }
  }

  lemma {:induction false} EvictOldestPending(log: seq<Record>, n: nat)
    requires n <= |PendingHops(log)|
    ensures PendingHops(EvictOldest(log, n)) == PendingHops(log)[n..]
  {
    if log != [] && n != 0 {
      if log[0].status.Pending? {
        EvictOldestPending(log[1..], n - 1);
        assert PendingHops(log)[n..] == PendingHops(log[1..])[n - 1..];
      } else {
        EvictOldestPending(log[1..], n);
      }
    }
  }

  lemma RemoveFromTail(p: seq<Value>, rest: seq<Value>, i: nat)
    requires p != [] && p[1..] == rest && i < |rest|
    ensures p[..i + 1] + p[i + 2..] == [p[0]] + (rest[..i] + rest[i + 1..])
  {
    assert p == [p[0]] + rest;
    assert p[..i + 1] == [p[0]] + rest[..i];
    assert p[i + 2..] == rest[i + 1..];
  }

  /** `log'`, `v` are `log` after delivering its oldest pending hop matching `f`. */
  ghost predicate DeliversAt(pending: seq<Value>, f: WaitFilter, after: seq<Value>, v: Option<Value>) {
    var i := FirstMatch(pending, f);
    if i == |pending| then v == None && after == pending
    else v == Some(pending[i]) && after == pending[..i] + pending[i + 1..]
  }

  lemma {:induction false} DeliverOldestPending(log: seq<Record>, f: WaitFilter)
    ensures DeliversAt(PendingHops(log), f, PendingHops(DeliverOldest(log, f).0), DeliverOldest(log, f).1)
    ensures DeliverOldest(log, f).1.None? ==> DeliverOldest(log, f).0 == log
  {
    hide Matches;
    if log == [] {
    } else if !log[0].status.Pending? {
      DeliverOldestPending(log[1..], f);
      assert [log[0]] + log[1..] == log;
      var log' := DeliverOldest(log, f).0;
      assert log'[1..] == DeliverOldest(log[1..], f).0;
    } else if Matches(f, log[0].hop) {
      DeliverHead(log, f);
      var p := PendingHops(log);
      assert p[..0] + p[1..] == PendingHops(log[1..]);
    } else {
      DeliverOldestPending(log[1..], f);
      SkipHead(log, f);
      assert [log[0]] + log[1..] == log;
      DeliversAtTail(PendingHops(log), f, PendingHops(DeliverOldest(log[1..], f).0), DeliverOldest(log[1..], f).1);
    }
  }

  lemma DeliversAtTail(p: seq<Value>, f: WaitFilter, after: seq<Value>, v: Option<Value>)
    requires p != [] && !Matches(f, p[0]) && DeliversAt(p[1..], f, after, v)
    ensures DeliversAt(p, f, [p[0]] + after, v)
  {
    var i := FirstMatch(p[1..], f);
    assert FirstMatch(p, f) == i + 1;
    if i < |p[1..]| {
      RemoveFromTail(p, p[1..], i);
    }
  }

  lemma DeliverHead(log: seq<Record>, f: WaitFilter)
    requires log != [] && log[0].status.Pending? && Matches(f, log[0].hop)
    ensures DeliverOldest(log, f).1 == Some(log[0].hop)
    ensures PendingHops(DeliverOldest(log, f).0) == PendingHops(log[1..])
  {
    var log' := DeliverOldest(log, f).0;
    assert log'[1..] == log[1..];
  }

  lemma SkipHead(log: seq<Record>, f: WaitFilter)
    requires log != [] && log[0].status.Pending? && !Matches(f, log[0].hop)
    ensures DeliverOldest(log, f) == ([log[0]] + DeliverOldest(log[1..], f).0, DeliverOldest(log[1..], f).1)
    ensures PendingHops(DeliverOldest(log, f).0) == [log[0].hop] + PendingHops(DeliverOldest(log[1..], f).0)
  {
    var log' := DeliverOldest(log, f).0;
    assert log'[1..] == DeliverOldest(log[1..], f).0;
  }

  lemma FirstMatchLast(items: seq<Value>, v: Value, f: WaitFilter)
    requires NoneMatches(items, f) && Matches(f, v)
    ensures FirstMatch(items + [v], f) == |items|
  {
    var all := items + [v];
    assert all[|items|] == v;
    assert forall j :: 0 <= j < |items| ==> all[j] == items[j] && !Matches(f, all[j]);
  }

  lemma {:induction false} EvictNoneMatches(q: Queue, cost: nat, c: Config, f: WaitFilter)
    requires NoneMatches(q.items, f)
    ensures NoneMatches(EvictFor(q, cost, c).items, f)
    decreases |q.items|
  {
    hide Matches, Fits;
    if !Fits(q, cost, c) && q.items != [] {
      var r := RemoveAt(q, 0);
      assert forall j :: 0 <= j < |r.items| ==> r.items[j] == q.items[j + 1];
      EvictNoneMatches(r, cost, c, f);
    }
  }

  /** Dropping a prefix, or appending a hop that does not match, cannot create a match. */
  lemma EnqueueNoneMatches(q: Queue, v: Value, policy: Policy, c: Config, f: WaitFilter)
    requires NoneMatches(q.items, f) && !Matches(f, v)
    ensures NoneMatches(Enqueue(q, v, policy, c).0.items, f)
  {
    EvictNoneMatches(q, MemorySize(v), c, f);
    var e := EvictFor(q, MemorySize(v), c).items;
    assert NoneMatches(e, f);
    assert NoneMatches(e + [v], f);
    assert NoneMatches(q.items + [v], f);
  }

  lemma PushMissesNothing(m: Mailbox, v: Value, c: Config)
    ensures NothingMissed(m) ==> NothingMissed(Push(m, v, c).0) && NothingMissed(PushSystem(m, v).0)
  {
    hide Matches, Enqueue;
    if !(m.parked.Some? && Matches(m.filter, v)) {
      QueueingMissesNothing(m, v);
      if m.parked.Some? && NothingMissed(m) {
        EnqueueNoneMatches(m.queue, v, c.policy, c, m.filter);
      }
    }
  }

  lemma QueueingMissesNothing(m: Mailbox, v: Value)
    requires !(m.parked.Some? && Matches(m.filter, v))
    ensures NothingMissed(m) ==> NothingMissed(m.(queue := PushBack(m.queue, v)))
  {
    hide Matches;
    if m.parked.Some? && NothingMissed(m) {
      AppendNoneMatches(m.queue.items, v, m.filter);
    }
  }

  lemma AppendNoneMatches(items: seq<Value>, v: Value, f: WaitFilter)
    requires NoneMatches(items, f) && !Matches(f, v)
    ensures NoneMatches(items + [v], f)
  {
  }

  lemma ParkMissesNothing(m: Mailbox, flow: Flow, f: WaitFilter)
    requires Park(m, flow, f).1.Installed?
    ensures NothingMissed(Park(m, flow, f).0)
  {
    hide Matches;
  }

  lemma EnqueuePending(log: seq<Record>, q: Queue, v: Value, policy: Policy, c: Config)
    requires Exact(q) && q.items == PendingHops(log)
    ensures var kept := PendingHops(EvictOldest(log, Evictions(q, MemorySize(v), policy, c)));
            && Enqueue(q, v, policy, c).0.items == if Enqueue(q, v, policy, c).1.Accepted? then kept + [v] else kept
  {
    var cost := MemorySize(v);
    var e := EvictFor(q, cost, c);
    EvictIsSuffix(q, cost, c);
    EvictOldestPending(log, Evictions(q, cost, policy, c));
    if policy.DropOldest? {
      assert PendingHops(EvictOldest(log, Evictions(q, cost, policy, c))) == e.items;
    } else {
      assert q.items[0..] == q.items;
    }
  }

  lemma AcceptPending(log: seq<Record>, v: Value)
    ensures PendingHops(Accept(log, v)) == PendingHops(log) + [v]
  {
    PendingAppend(log, [Record(v, Pending)]);
    assert PendingHops([Record(v, Pending)]) == [v] + PendingHops([]);
  }

  lemma NothingToDeliver(log: seq<Record>, f: WaitFilter)
    requires NoneMatches(PendingHops(log), f)
    ensures DeliverOldest(log, f) == (log, None)
  {
    DeliverOldestPending(log, f);
  }

  // ----- the refinement -----

  /** A step keeps the refinement and hands over exactly what the ideal mailbox delivers. */
  ghost predicate StepAgrees(m: Mailbox, log: seq<Record>, op: Op, c: Config) {
    && Refines(Apply(m, op, c), IdealStep(log, m, op, c))
    && Handed(m, op, c) == if Asking(m, op) then DeliverOldest(Offered(log, m, op, c), InForce(m, op)).1 else None
  }

  lemma HandoffRefines(m: Mailbox, log: seq<Record>, v: Value)
    requires Refines(m, log) && m.parked.Some? && Matches(m.filter, v)
    ensures DeliverOldest(Accept(log, v), m.filter).1 == Some(v)
    ensures PendingHops(DeliverOldest(Accept(log, v), m.filter).0) == PendingHops(log)
  {
    var added := Accept(log, v);
    AcceptPending(log, v);
    FirstMatchLast(PendingHops(log), v, m.filter);
    DeliverOldestPending(added, m.filter);
    var p := PendingHops(added);
    assert p[..|p| - 1] + p[|p|..] == PendingHops(log);
  }

  lemma EnqueueRefines(m: Mailbox, log: seq<Record>, v: Value, policy: Policy, c: Config)
    requires Refines(m, log) && ValidConfig(c) && (m.parked.Some? ==> !Matches(m.filter, v))
    ensures var kept := EvictOldest(log, Evictions(m.queue, MemorySize(v), policy, c));
            var (q, r) := Enqueue(m.queue, v, policy, c);
            Refines(m.(queue := q), if r.Accepted? then Accept(kept, v) else kept)
  {
    EnqueueKeepsExact(m.queue, v, policy, c);
    EnqueuePending(log, m.queue, v, policy, c);
    AcceptPending(EvictOldest(log, Evictions(m.queue, MemorySize(v), policy, c)), v);
    if m.parked.Some? {
      EnqueueNoneMatches(m.queue, v, policy, c, m.filter);
    }
  }

  lemma PushEffects(m: Mailbox, v: Value, c: Config)
    requires m.parked.Some? ==> !Matches(m.filter, v)
    ensures var (q, r) := Enqueue(m.queue, v, c.policy, c);
            && Apply(m, OpPush(v), c) == m.(queue := q)
            && Handed(m, OpPush(v), c) == None
            && Added(m, OpPush(v), c) == (if r.Accepted? then Some(v) else None)
    ensures Dropped(m, OpPush(v), c) == Evictions(m.queue, MemorySize(v), c.policy, c)
  {
  }

  lemma PushQueues(m: Mailbox, log: seq<Record>, v: Value, c: Config)
    requires Refines(m, log) && ValidConfig(c) && (m.parked.Some? ==> !Matches(m.filter, v))
    ensures Refines(Apply(m, OpPush(v), c), Offered(log, m, OpPush(v), c))
  {
    PushEffects(m, v, c);
    EnqueueRefines(m, log, v, c.policy, c);
  }

  lemma PushAgrees(m: Mailbox, log: seq<Record>, v: Value, c: Config)
    requires Refines(m, log) && ValidConfig(c)
    ensures StepAgrees(m, log, OpPush(v), c)
  {
    if m.parked.Some? && Matches(m.filter, v) {
      assert EvictOldest(log, 0) == log;
      HandoffRefines(m, log, v);
    } else {
      PushEffects(m, v, c);
      PushQueues(m, log, v, c);
      if m.parked.Some? {
        NothingToDeliver(Offered(log, m, OpPush(v), c), m.filter);
      }
    }
  }

  lemma SystemAgrees(m: Mailbox, log: seq<Record>, v: Value, c: Config)
    requires Refines(m, log) && Enabled(m, OpSystem(v))
    ensures StepAgrees(m, log, OpSystem(v), c)
  {
    hide Matches, MemorySize;
    assert EvictOldest(log, 0) == log;
    if m.parked.Some? && Matches(m.filter, v) {
      HandoffRefines(m, log, v);
    } else {
      TotalSizeAppend(m.queue.items, [v]);
      AcceptPending(log, v);
      if m.parked.Some? {
        NothingToDeliver(Accept(log, v), m.filter);
      }
    }
  }

  lemma TakeRefines(m: Mailbox, log: seq<Record>, f: WaitFilter)
    requires Refines(m, log)
    ensures var (q, v) := TakeFrom(m.queue, f);
            && v == DeliverOldest(log, f).1
            && Exact(q)
            && q.items == PendingHops(DeliverOldest(log, f).0)
            && (v.None? ==> NoneMatches(m.queue.items, f) && q == m.queue)
            && (m.parked.Some? ==> NoneMatches(q.items, m.filter))
  {
    DeliverOldestPending(log, f);
    TakeKeepsExact(m.queue, f);
  }

  lemma AdmitAgrees(m: Mailbox, log: seq<Record>, c: Config)
    requires Refines(m, log) && ValidConfig(c) && m.parked.None?
    ensures StepAgrees(m, log, OpAdmit, c)
  {
    assert EvictOldest(log, 0) == log;
    if !m.closed && m.waiting != [] {
      EnqueueRefines(m, log, m.waiting[0].message, Reject, c);
    }
  }

  /** Every operation is one step of the ideal mailbox. */
  lemma StepRefines(m: Mailbox, log: seq<Record>, op: Op, c: Config)
    requires Refines(m, log) && ValidConfig(c) && Enabled(m, op)
    ensures StepAgrees(m, log, op, c)
  {
    assert EvictOldest(log, 0) == log;
    match op {
      case OpPush(v) => PushAgrees(m, log, v, c);
      case OpSystem(v) => SystemAgrees(m, log, v, c);
      case OpPop(f) => TakeRefines(m, log, f);
      case OpPark(flow, f) => TakeRefines(m, log, f);
      case OpAdmit => AdmitAgrees(m, log, c);
      case _ =>
    }
  }

  /**
   In every run the mailbox refines the ideal mailbox; in particular a parked
   filter never matches any queued hop, however the run got there.
   */
  lemma {:induction false} RunRefines(m: Mailbox, log: seq<Record>, ops: seq<Op>, c: Config)
    requires Refines(m, log) && ValidConfig(c) && RunEnabled(m, ops, c)
    ensures Refines(Run(m, ops, c), IdealRun(log, m, ops, c))
    decreases |ops|
  {
    if ops != [] {
      StepRefines(m, log, ops[0], c);
      RunRefines(Apply(m, ops[0], c), IdealStep(log, m, ops[0], c), ops[1..], c);
    }
  }

  /**
   After any run of a fresh mailbox, an operation hands a hop to a flow exactly when
   a pending hop matches the filter in force, and it hands over the oldest such hop;
   all other pending hops keep their order.
   */
  lemma EveryDeliveryIsOldestMatch(ops: seq<Op>, op: Op, c: Config)
    requires ValidConfig(c) && RunEnabled(EmptyMailbox(), ops, c)
    requires Enabled(Run(EmptyMailbox(), ops, c), op)
    ensures var m := Run(EmptyMailbox(), ops, c);
            var log := IdealRun([], EmptyMailbox(), ops, c);
            StepAgrees(m, log, op, c)
  {
    RunRefines(EmptyMailbox(), [], ops, c);
    StepRefines(Run(EmptyMailbox(), ops, c), IdealRun([], EmptyMailbox(), ops, c), op, c);
  }

  // ----- wait epochs -----

  /** Parks installed over a run. */
  lemma {:induction false} ParksNeverFall(m: Mailbox, ops: seq<Op>, c: Config)
    ensures m.parks <= Run(m, ops, c).parks
    decreases |ops|
  {
    if ops != [] {
      ParksNeverFall(Apply(m, ops[0], c), ops[1..], c);
    }
  }

  lemma EpochStep(m: Mailbox, op: Op, c: Config)
    requires m.epoch == m.parks % EPOCHS
    ensures Apply(m, op, c).epoch == Apply(m, op, c).parks % EPOCHS
  {
    hide Enqueue, TakeFrom, Matches;
    NextEpoch(m.parks);
  }

  lemma {:induction false} EpochTracksParks(m: Mailbox, ops: seq<Op>, c: Config)
    requires m.epoch == m.parks % EPOCHS
    ensures Run(m, ops, c).epoch == Run(m, ops, c).parks % EPOCHS
    decreases |ops|
  {
    hide Apply;
    if ops != [] {
      EpochStep(m, ops[0], c);
      EpochTracksParks(Apply(m, ops[0], c), ops[1..], c);
    }
  }

  lemma ModuloDistinct(a: nat, b: nat)
    requires a <= b < a + EPOCHS
    ensures a % EPOCHS == b % EPOCHS <==> a == b
  {
    var d := b - a;
    assert a == EPOCHS * (a / EPOCHS) + a % EPOCHS;
    assert b == EPOCHS * (b / EPOCHS) + b % EPOCHS;
    if a % EPOCHS == b % EPOCHS {
      assert d == EPOCHS * (b / EPOCHS - a / EPOCHS);
      assert b / EPOCHS - a / EPOCHS == 0;
    }
  }

  /** While the arming park is the latest one, whoever is parked is the flow it parked, under its filter. */
  lemma {:induction false} SameParkSameFlow(m: Mailbox, ops: seq<Op>, c: Config)
    requires m.parked.Some?
    ensures var m' := Run(m, ops, c);
            m'.parks == m.parks && m'.parked.Some? ==> m'.parked == m.parked && m'.filter == m.filter
    decreases |ops|
  {
    if ops != [] {
      var n := Apply(m, ops[0], c);
      if n.parked.Some? {
        SameParkSameFlow(n, ops[1..], c);
        ParksNeverFall(n, ops[1..], c);
      } else {
        UnparkedStaysUnparked(n, ops[1..], c);
      }
    }
  }

  lemma {:induction false} UnparkedStaysUnparked(m: Mailbox, ops: seq<Op>, c: Config)
    requires m.parked.None?
    ensures Run(m, ops, c).parks == m.parks ==> Run(m, ops, c).parked.None?
    decreases |ops|
  {
    if ops != [] {
      var n := Apply(m, ops[0], c);
      ParksNeverFall(n, ops[1..], c);
      if n.parked.None? {
        UnparkedStaysUnparked(n, ops[1..], c);
      }
    }
  }

  /**
   A deadline armed by one park takes the flow after any later run exactly when
   someone is parked and that same park is still the latest, as long as fewer
   than 2^64 parks happened in between. Then the flow is the one that armed it, still under the
   filter it parked with; otherwise the attempt changes nothing.
   */
  lemma DeadlineTakesOnlyItsOwnPark(m: Mailbox, flow: Flow, f: WaitFilter, ops: seq<Op>, c: Config)
    requires m.epoch == m.parks % EPOCHS && Park(m, flow, f).1.Installed?
    requires Run(Park(m, flow, f).0, ops, c).parks < m.parks + 1 + EPOCHS
    ensures var armed := Park(m, flow, f).1.epoch;
            var m' := Run(Park(m, flow, f).0, ops, c);
            && (TakeParkedAt(m', armed).1.Some? <==> m'.parked.Some? && m'.parks == m.parks + 1)
            && (TakeParkedAt(m', armed).1.Some? ==> TakeParkedAt(m', armed).1 == Some(flow) && m'.filter == f)
            && (TakeParkedAt(m', armed).1.None? ==> TakeParkedAt(m', armed).0 == m')
  {
    var p := Park(m, flow, f).0;
    var m' := Run(p, ops, c);
    ParkEpoch(m, flow, f);
    EpochTracksParks(p, ops, c);
    ParksNeverFall(p, ops, c);
    DeadlineByParks(m', p.parks);
    SameParkSameFlow(p, ops, c);
  }

  lemma ParkEpoch(m: Mailbox, flow: Flow, f: WaitFilter)
    requires m.epoch == m.parks % EPOCHS && Park(m, flow, f).1.Installed?
    ensures var (p, r) := Park(m, flow, f);
            && p.parks == m.parks + 1 && r.epoch == p.epoch == p.parks % EPOCHS
            && p.parked == Some(flow) && p.filter == f
  {
  }

  lemma DeadlineByParks(m: Mailbox, park: nat)
    requires m.epoch == m.parks % EPOCHS && park <= m.parks < park + EPOCHS
    ensures TakeParkedAt(m, park % EPOCHS).1.Some? <==> m.parked.Some? && m.parks == park
    ensures TakeParkedAt(m, park % EPOCHS).1.None? ==> TakeParkedAt(m, park % EPOCHS).0 == m
  {
    ModuloDistinct(park, m.parks);
  }

  /** The parked flow is taken out and parks again, `n` times over. */
  function Reparks(flow: Flow, f: WaitFilter, n: nat): seq<Op> {
    if n == 0 then [] else [OpTakeParked, OpPark(flow, f)] + Reparks(flow, f, n - 1)
  }

  lemma ReparkOnce(m: Mailbox, flow: Flow, f: WaitFilter, c: Config, rest: seq<Op>)
    requires NoneMatches(m.queue.items, f)
    ensures var m1 := m.(epoch := (m.epoch + 1) % EPOCHS, parks := m.parks + 1, filter := f, parked := Some(flow));
            var ops := [OpTakeParked, OpPark(flow, f)] + rest;
            && Run(m, ops, c) == Run(m1, rest, c)
            && (RunEnabled(m, ops, c) <==> RunEnabled(m1, rest, c))
  {
    var ops := [OpTakeParked, OpPark(flow, f)] + rest;
    assert ops[1..] == [OpPark(flow, f)] + rest && ops[1..][1..] == rest;
    var taken := Apply(m, OpTakeParked, c);
    assert taken.queue == m.queue && taken.parked.None?;
    assert Apply(taken, OpPark(flow, f), c)
           == m.(epoch := (m.epoch + 1) % EPOCHS, parks := m.parks + 1, filter := f, parked := Some(flow));
  }

  lemma {:induction false} ReparksCount(m: Mailbox, flow: Flow, f: WaitFilter, n: nat, c: Config)
    requires NoneMatches(m.queue.items, f) && m.epoch == m.parks % EPOCHS
    ensures var m' := Run(m, Reparks(flow, f, n), c);
            && RunEnabled(m, Reparks(flow, f, n), c)
            && m'.parks == m.parks + n && m'.epoch == m'.parks % EPOCHS
            && (n > 0 ==> m'.parked == Some(flow) && m'.filter == f)
    decreases n
  {
    hide Apply, Enabled;
    if n > 0 {
      ReparkOnce(m, flow, f, c, Reparks(flow, f, n - 1));
      var m1 := m.(epoch := (m.epoch + 1) % EPOCHS, parks := m.parks + 1, filter := f, parked := Some(flow));
      NextEpoch(m.parks);
      ReparksCount(m1, flow, f, n - 1, c);
      assert n == 1 ==> Run(m1, Reparks(flow, f, 0), c) == m1;
    }
  }

  lemma NextEpoch(parks: nat)
    ensures (parks % EPOCHS + 1) % EPOCHS == (parks + 1) % EPOCHS
  {
  }

  /**
   The bound is needed. In any mailbox where two filters match nothing that is queued, a flow
   parks and its deadline is armed; it is woken and parks again, in another state and under
   another filter, 2^64 times; then the counter repeats, and the old deadline takes that other park.
   */
  lemma StaleEpochRepeats(m: Mailbox, flow: Flow, f: WaitFilter, other: Flow, f': WaitFilter, c: Config)
    requires m.epoch == m.parks % EPOCHS && m.parked.None?
    requires NoneMatches(m.queue.items, f) && NoneMatches(m.queue.items, f')
    ensures Park(m, flow, f).1.Installed?
    ensures var (p, r) := Park(m, flow, f);
            var later := Run(p, Reparks(other, f', EPOCHS), c);
            && RunEnabled(p, Reparks(other, f', EPOCHS), c)
            && later.parks == p.parks + EPOCHS
            && later.parked == Some(other) && later.filter == f'
            && TakeParkedAt(later, r.epoch).1 == Some(other)
  {
    hide Run, RunEnabled, Reparks;
    ParkFinds(m, flow, f);
    ParkEpoch(m, flow, f);
    var (p, r) := Park(m, flow, f);
    ReparksCount(p, other, f', EPOCHS, c);
    ModuloRepeats(p.parks);
  }

  lemma ParkFinds(m: Mailbox, flow: Flow, f: WaitFilter)
    requires NoneMatches(m.queue.items, f)
    ensures Park(m, flow, f).1.Installed? && Park(m, flow, f).0.queue == m.queue
  {
  }

  lemma ModuloRepeats(parks: nat)
    ensures (parks + EPOCHS) % EPOCHS == parks % EPOCHS
  {
  }

  // ----- conservation -----

  function CountStatus(log: seq<Record>, s: Status): nat {
    if log == [] then 0 else (if log[0].status == s then 1 else 0) + CountStatus(log[1..], s)
  }

  lemma {:induction false} StatusesPartition(log: seq<Record>)
    ensures |log| == CountStatus(log, Pending) + CountStatus(log, Delivered) + CountStatus(log, Evicted)
    ensures |PendingHops(log)| == CountStatus(log, Pending)
  {
    if log != [] {
      StatusesPartition(log[1..]);
    }
  }

  /** Every hop ever accepted is queued now, was delivered once, or was evicted once. */
  lemma HopsAreConserved(ops: seq<Op>, c: Config)
    requires ValidConfig(c) && RunEnabled(EmptyMailbox(), ops, c)
    ensures var log := IdealRun([], EmptyMailbox(), ops, c);
            |log| == |Run(EmptyMailbox(), ops, c).queue.items| + CountStatus(log, Delivered) + CountStatus(log, Evicted)
  {
    RunRefines(EmptyMailbox(), [], ops, c);
    StatusesPartition(IdealRun([], EmptyMailbox(), ops, c));
  }

  // ----- the flows in a mailbox -----

  function Once(flow: Flow, f: Flow): nat {
    if flow == f then 1 else 0
  }

  function Maybe(o: Option<Flow>, f: Flow): nat {
    if o.Some? then Once(o.value, f) else 0
  }

  function Times(flows: seq<Flow>, f: Flow): nat {
    if flows == [] then 0 else Once(flows[0], f) + Times(flows[1..], f)
  }

  function Waits(ws: seq<Waiting>, f: Flow): nat {
    if ws == [] then 0 else Once(ws[0].flow, f) + Waits(ws[1..], f)
  }

  /** How often the flow is in the mailbox: parked, or waiting to send to it. */
  function Inside(m: Mailbox, f: Flow): nat {
    Maybe(m.parked, f) + Waits(m.waiting, f)
  }

  /** The sender an operation lets into the queue of waiting senders. */
  function Joining(m: Mailbox, op: Op): seq<Waiting> {
    if op.OpParkSender? && ParkSender(m, op.flow, op.hop).1 then [Waiting(op.flow, op.hop)] else []
  }

  /** How often an operation takes the flow into the mailbox. */
  function Entering(m: Mailbox, op: Op, f: Flow): nat {
    match op
    case OpPark(flow, filter) => if Park(m, flow, filter).1.Installed? then Once(flow, f) else 0
    case OpParkSender(flow, v) => if ParkSender(m, flow, v).1 then Once(flow, f) else 0
    case _ => 0
  }

  /** How often an operation gives the flow back to its caller. */
  function Leaving(m: Mailbox, op: Op, c: Config, f: Flow): nat {
    match op
    case OpPush(v) => (match Push(m, v, c).1 case Handoff(flow) => Once(flow, f) case _ => 0)
    case OpSystem(v) => (match PushSystem(m, v).1 case Handoff(flow) => Once(flow, f) case _ => 0)
    case OpTimeout(e) => Maybe(TakeParkedAt(m, e).1, f)
    case OpTakeParked => Maybe(TakeParked(m).1, f)
    case OpClose => Times(Close(m).1, f)
    case OpAdmit => Maybe(AdmitSender(m, c).1, f)
    case OpTakeSender(id) => Maybe(TakeSender(m, id).1, f)
    case _ => 0
  }

  function AllEntering(m: Mailbox, ops: seq<Op>, c: Config, f: Flow): nat
    decreases |ops|
  {
    if ops == [] then 0 else Entering(m, ops[0], f) + AllEntering(Apply(m, ops[0], c), ops[1..], c, f)
  }

  function AllLeaving(m: Mailbox, ops: seq<Op>, c: Config, f: Flow): nat
    decreases |ops|
  {
    if ops == [] then 0 else Leaving(m, ops[0], c, f) + AllLeaving(Apply(m, ops[0], c), ops[1..], c, f)
  }

  lemma {:induction false} WaitsAppend(a: seq<Waiting>, b: seq<Waiting>, f: Flow)
    ensures Waits(a + b, f) == Waits(a, f) + Waits(b, f)
  {
    if a == [] {
      assert a + b == b;
    } else {
      WaitsAppend(a[1..], b, f);
      assert (a + b)[1..] == a[1..] + b;
    }
  }

  lemma WaitsWithout(ws: seq<Waiting>, i: nat, f: Flow)
    requires i < |ws|
    ensures Waits(ws, f) == Waits(ws[..i] + ws[i + 1..], f) + Once(ws[i].flow, f)
  {
    WaitsAppend(ws[..i], ws[i..], f);
    WaitsAppend(ws[..i], ws[i + 1..], f);
    assert ws == ws[..i] + ws[i..] && ws[i..][1..] == ws[i + 1..];
  }

  lemma {:induction false} TimesIsWaits(flows: seq<Flow>, ws: seq<Waiting>, f: Flow)
    requires |flows| == |ws| && forall i :: 0 <= i < |ws| ==> flows[i] == ws[i].flow
    ensures Times(flows, f) == Waits(ws, f)
  {
    if ws != [] {
      TimesIsWaits(flows[1..], ws[1..], f);
    }
  }

  /** No operation loses a flow or gives one back twice. */
  lemma FlowsBalance(m: Mailbox, op: Op, c: Config, f: Flow)
    requires Enabled(m, op)
    ensures Inside(m, f) + Entering(m, op, f) == Inside(Apply(m, op, c), f) + Leaving(m, op, c, f)
  {
    if op.OpClose? || op.OpParkSender? || op.OpAdmit? || op.OpTakeSender? {
      SendersBalance(m, op, c, f);
    } else {
      SlotBalance(m, op, c, f);
    }
  }

  lemma SlotBalance(m: Mailbox, op: Op, c: Config, f: Flow)
    requires Enabled(m, op) && !op.OpClose? && !op.OpParkSender? && !op.OpAdmit? && !op.OpTakeSender?
    ensures Inside(m, f) + Entering(m, op, f) == Inside(Apply(m, op, c), f) + Leaving(m, op, c, f)
  {
    hide Enqueue, TakeFrom, Matches, Waits, Once, MemorySize;
  }

  lemma SendersBalance(m: Mailbox, op: Op, c: Config, f: Flow)
    requires op.OpClose? || op.OpParkSender? || op.OpAdmit? || op.OpTakeSender?
    ensures Inside(m, f) + Entering(m, op, f) == Inside(Apply(m, op, c), f) + Leaving(m, op, c, f)
  {
    hide Enqueue, Waits, Once, Times;
    NobodyWaits(f);
    match op {
      case OpClose =>
        TimesIsWaits(Close(m).1, m.waiting, f);
      case OpParkSender(flow, v) =>
        WaitsAppend(m.waiting, [Waiting(flow, v)], f);
        OneWaits(Waiting(flow, v), f);
      case OpAdmit =>
        if m.waiting != [] {
          WaitsWithout(m.waiting, 0, f);
          assert m.waiting[..0] + m.waiting[1..] == m.waiting[1..];
        }
      case OpTakeSender(id) =>
        var i := WaiterIndex(m.waiting, id);
        if i < |m.waiting| {
          WaitsWithout(m.waiting, i, f);
        }
    }
  }

  lemma NobodyWaits(f: Flow)
    ensures Waits([], f) == 0
  {
  }

  lemma OneWaits(w: Waiting, f: Flow)
    ensures Waits([w], f) == Once(w.flow, f)
  {
    assert [w][1..] == [];
  }

  /** Over any run, every flow that parked or waited to send is still in the mailbox or was given back once. */
  lemma {:induction false} FlowsAreConserved(m: Mailbox, ops: seq<Op>, c: Config, f: Flow)
    requires RunEnabled(m, ops, c)
    ensures Inside(m, f) + AllEntering(m, ops, c, f) == Inside(Run(m, ops, c), f) + AllLeaving(m, ops, c, f)
    decreases |ops|
  {
    hide Inside, Entering, Leaving, Apply, Enabled;
    if ops != [] {
      FlowsBalance(m, ops[0], c, f);
      FlowsAreConserved(Apply(m, ops[0], c), ops[1..], c, f);
    }
  }

  ghost predicate Subsequence<T>(a: seq<T>, b: seq<T>) {
    if a == [] then true
    else b != [] && ((a[0] == b[0] && Subsequence(a[1..], b[1..])) || Subsequence(a, b[1..]))
  }

  lemma {:induction false} KeepsAll<T>(a: seq<T>, tail: seq<T>)
    ensures Subsequence(a, a + tail)
  {
    if a != [] {
      KeepsAll(a[1..], tail);
      assert (a + tail)[1..] == a[1..] + tail;
    }
  }

  lemma {:induction false} DropsOne<T>(b: seq<T>, i: nat)
    requires i < |b|
    ensures Subsequence(b[..i] + b[i + 1..], b)
  {
    var a := b[..i] + b[i + 1..];
    if i == 0 {
      assert a == b[1..];
      KeepsAll(a, []);
      assert a + [] == a;
    } else {
      DropsOne(b[1..], i - 1);
      assert a[1..] == b[1..][..i - 1] + b[1..][i..];
    }
  }

  lemma {:induction false} SubsequenceAppend<T>(a: seq<T>, b: seq<T>, tail: seq<T>)
    requires Subsequence(a, b)
    ensures Subsequence(a + tail, b + tail)
    decreases |b|
  {
    if b == [] {
      KeepsAll(tail, []);
      assert a + tail == tail && b + tail == tail && tail + [] == tail;
    } else {
      assert (b + tail)[1..] == b[1..] + tail;
      if a == [] {
        SubsequenceAppend(a, b[1..], tail);
        if tail != [] {
          assert a + tail == tail;
        }
      } else if a[0] == b[0] && Subsequence(a[1..], b[1..]) {
        SubsequenceAppend(a[1..], b[1..], tail);
        assert (a + tail)[1..] == a[1..] + tail;
      } else {
        SubsequenceAppend(a, b[1..], tail);
      }
    }
  }

  lemma {:induction false} SubsequenceTrans<T>(a: seq<T>, b: seq<T>, d: seq<T>)
    requires Subsequence(a, b) && Subsequence(b, d)
    ensures Subsequence(a, d)
    decreases |d|
  {
    if a != [] {
      if b[0] == d[0] && Subsequence(b[1..], d[1..]) {
        if a[0] == b[0] && Subsequence(a[1..], b[1..]) {
          SubsequenceTrans(a[1..], b[1..], d[1..]);
        } else {
          SubsequenceTrans(a, b[1..], d[1..]);
        }
      } else {
        SubsequenceTrans(a, b, d[1..]);
      }
    }
  }

  function AllJoining(m: Mailbox, ops: seq<Op>, c: Config): seq<Waiting>
    decreases |ops|
  {
    if ops == [] then [] else Joining(m, ops[0]) + AllJoining(Apply(m, ops[0], c), ops[1..], c)
  }

  lemma StepKeepsTurns(m: Mailbox, op: Op, c: Config)
    ensures Subsequence(Apply(m, op, c).waiting, m.waiting + Joining(m, op))
  {
    hide Subsequence, Apply, Joining;
    var ws := m.waiting;
    TurnsAfter(m, op, c);
    if op.OpAdmit? && ws != [] {
      DropsOne(ws, 0);
    }
    if op.OpTakeSender? && WaiterIndex(ws, op.id) < |ws| {
      DropsOne(ws, WaiterIndex(ws, op.id));
    }
    KeepsAll(ws, []);
    KeepsAll(ws + Joining(m, op), []);
    NothingKept(ws);
    assert ws + [] == ws && ws + Joining(m, op) + [] == ws + Joining(m, op);
  }

  /** What an operation can do to the waiting senders. */
  lemma TurnsAfter(m: Mailbox, op: Op, c: Config)
    ensures var ws, ws' := m.waiting, Apply(m, op, c).waiting;
            var i := if op.OpTakeSender? then WaiterIndex(ws, op.id) else 0;
            || ws' == ws + Joining(m, op)
            || (Joining(m, op) == [] && (op.OpAdmit? || op.OpTakeSender?) && i < |ws| && ws' == ws[..i] + ws[i + 1..])
            || (Joining(m, op) == [] && ws' == [])
  {
    hide Enqueue, TakeFrom, Matches;
    assert m.waiting + [] == m.waiting;
    if op.OpAdmit? && m.waiting != [] {
      assert m.waiting[..0] + m.waiting[1..] == m.waiting[1..];
    }
  }

  lemma NothingKept<T>(b: seq<T>)
    ensures Subsequence([], b)
  {
  }

  /** Over any run, whoever waits to send stands in the order of arrival. */
  lemma {:induction false} SendersKeepTheirTurn(m: Mailbox, ops: seq<Op>, c: Config)
    ensures Subsequence(Run(m, ops, c).waiting, m.waiting + AllJoining(m, ops, c))
    decreases |ops|
  {
    hide Subsequence, Apply, Joining;
    if ops == [] {
      KeepsAll(m.waiting, []);
    } else {
      var n := Apply(m, ops[0], c);
      var later := AllJoining(n, ops[1..], c);
      StepKeepsTurns(m, ops[0], c);
      SendersKeepTheirTurn(n, ops[1..], c);
      SubsequenceAppend(n.waiting, m.waiting + Joining(m, ops[0]), later);
      SubsequenceTrans(Run(n, ops[1..], c).waiting, n.waiting + later, m.waiting + Joining(m, ops[0]) + later);
      assert m.waiting + Joining(m, ops[0]) + later == m.waiting + (Joining(m, ops[0]) + later);
    }
  }

  /** An inbox is closed for good: nobody waits to send to it then, or ever after, and nobody is let in. */
  lemma {:induction false} ClosedForGood(m: Mailbox, ops: seq<Op>, c: Config)
    requires m.closed && m.waiting == []
    ensures Run(m, ops, c).closed && Run(m, ops, c).waiting == [] && AllJoining(m, ops, c) == []
    decreases |ops|
  {
    hide Enqueue, TakeFrom, Matches;
    if ops != [] {
      ClosedForGood(Apply(m, ops[0], c), ops[1..], c);
    }
  }

  /** Until then every sender that asks to wait is let in, and closing gives all of them back in their order. */
  lemma OpenUntilClosed(m: Mailbox, op: Op, c: Config)
    requires !m.closed
    ensures Apply(m, op, c).closed <==> op.OpClose?
    ensures op.OpParkSender? ==> Apply(m, op, c).waiting == m.waiting + [Waiting(op.flow, op.hop)]
    ensures op.OpClose? ==>
              && Apply(m, op, c).waiting == [] && |Close(m).1| == |m.waiting|
              && forall i :: 0 <= i < |m.waiting| ==> Close(m).1[i] == m.waiting[i].flow
  {
    hide Enqueue, TakeFrom, Matches;
  }
}
