/**
 The mailbox as the code keeps it: a hop queue with a byte counter and a physical
 capacity, and the inbox around it. Every method is proved to compute the
 corresponding operation of `MailboxSpec`, and to move the ghost log of accepted
 hops by one step of the ideal mailbox.
 */
module Inboxes {
  import opened Wrappers
  import opened Values
  import opened MailboxSpec

  class MailboxQueue {
    var inner: seq<Value>
    var bytes: nat
    /** Slots the allocator has reserved; independent of the logical bounds. */
    var capacity: nat
    const config: Config

    ghost predicate Valid()
      reads this
    {
      ValidConfig(config) && |inner| <= capacity
    }

    ghost function State(): Queue
      reads this
    {
      Queue(inner, bytes)
    }

    constructor (config: Config)
      requires ValidConfig(config)
      ensures Valid() && this.config == config && State() == Queue([], 0)
    {
      this.config := config;
      inner, bytes, capacity := [], 0, 0;
    }

    /** `VecDeque::reserve`: room for `additional` more, and as much more as the allocator likes. */
    method Reserve(additional: nat)
      requires Valid()
      modifies `capacity
      ensures Valid() && capacity >= |inner| + additional
    {
      var grown: nat :| grown >= |inner| + additional && grown >= capacity;
      capacity := grown;
    }

    method AppendBack(v: Value)
      requires Valid()
      modifies `inner, `capacity
      ensures Valid() && inner == old(inner) + [v]
    {
      if |inner| == capacity {
        Reserve(1);
      }
      inner := inner + [v];
    }

    /** Geometric growth capped at `bound`: it declines only when `bound` slots are already in use. */
    method ReserveForPush(bound: nat) returns (ok: bool)
      requires Valid()
      modifies `capacity
      ensures Valid()
      ensures ok <==> |inner| < old(capacity) || |inner| < bound
      ensures ok ==> |inner| < capacity
    {
      if |inner| < capacity {
        return true;
      }
      var current := capacity;
      var next := Min(Max(current, 1) * 2, bound);
      if next <= current {
        return |inner| < bound;
      }
      Reserve(next - current);
      return true;
    }

    method Take(f: WaitFilter) returns (v: Option<Value>)
      requires Valid()
      modifies `inner, `bytes
      ensures Valid()
      ensures (State(), v) == TakeFrom(old(State()), f)
    {
      var i := 0;
      while i < |inner| && !Matches(f, inner[i])
        invariant i <= |inner|
        invariant forall j :: 0 <= j < i ==> !Matches(f, inner[j])
      {
        i := i + 1;
      }
      assert i == FirstMatch(inner, f);
      if i == |inner| {
        return None;
      }
      v := Some(inner[i]);
      bytes := SatSub(bytes, MemorySize(inner[i]));
      inner := inner[..i] + inner[i + 1..];
    }

    method TryEnqueue(v: Value, policy: Policy) returns (r: Enqueued)
      requires Valid()
      modifies this
      ensures Valid()
      ensures (State(), r) == Enqueue(old(State()), v, policy, config)
    {
      var cost := MemorySize(v);
      if |inner| < config.limit && SatAdd(bytes, cost) <= config.byteLimit {
        var ok := ReserveForPush(config.limit);
        if !ok {
          assert false;
          return Refused(MessageLimit);
        }
        bytes := SatAdd(bytes, cost);
        AppendBack(v);
        return Accepted(false);
      }
      var reason := if |inner| >= config.limit then MessageLimit else ByteLimit;
      match policy {
        case Reject => r := Refused(reason);
        case DropNewest => r := Discarded;
        case DropOldest =>
          var dropped := false;
          ghost var target := EvictFor(State(), cost, config);
          while (|inner| >= config.limit || SatAdd(bytes, cost) > config.byteLimit) && inner != []
            invariant Valid() && EvictFor(State(), cost, config) == target
            invariant |inner| <= |old(inner)| && (dropped <==> |inner| < |old(inner)|)
            invariant !dropped ==> State() == old(State())
            decreases |inner|
          {
            var front := inner[0];
            assert inner[1..] == inner[..0] + inner[1..];
            bytes := SatSub(bytes, MemorySize(front));
            inner := inner[1..];
            dropped := true;
          }
          assert State() == target;
          if SatAdd(bytes, cost) > config.byteLimit {
            return Refused(ByteLimit);
          }
          bytes := SatAdd(bytes, cost);
          AppendBack(v);
          r := Accepted(dropped);
      }
    }

    method ForcePush(v: Value)
      requires Valid()
      modifies this
      ensures Valid()
      ensures State() == PushBack(old(State()), v)
    {
      var bound := Max(config.limit, |inner| + 1);
      var _ := ReserveForPush(bound);
      bytes := SatAdd(bytes, MemorySize(v));
      AppendBack(v);
    }
  }

  lemma {:induction false} DeliveredCount(log: seq<Record>, f: WaitFilter)
    ensures var (log', v) := DeliverOldest(log, f);
            && |log'| == |log|
            && CountStatus(log', Delivered) == CountStatus(log, Delivered) + (if v.Some? then 1 else 0)
            && CountStatus(log', Evicted) == CountStatus(log, Evicted)
  {
    if log != [] {
      DeliveredCount(log[1..], f);
      var log' := DeliverOldest(log, f).0;
      assert log'[1..] == log[1..] || log'[1..] == DeliverOldest(log[1..], f).0;
    }
  }

  lemma {:induction false} EvictedCount(log: seq<Record>, n: nat)
    requires n <= |PendingHops(log)|
    ensures var log' := EvictOldest(log, n);
            && |log'| == |log|
            && CountStatus(log', Delivered) == CountStatus(log, Delivered)
            && CountStatus(log', Evicted) == CountStatus(log, Evicted) + n
  {
    if log != [] && n > 0 {
      var log' := EvictOldest(log, n);
      if log[0].status.Pending? {
        EvictedCount(log[1..], n - 1);
        assert log'[1..] == EvictOldest(log[1..], n - 1);
      } else {
        EvictedCount(log[1..], n);
        assert log'[1..] == EvictOldest(log[1..], n);
      }
    }
  }

  lemma {:induction false} AcceptedCount(log: seq<Record>, v: Value)
    ensures |Accept(log, v)| == |log| + 1
    ensures CountStatus(Accept(log, v), Delivered) == CountStatus(log, Delivered)
    ensures CountStatus(Accept(log, v), Evicted) == CountStatus(log, Evicted)
  {
    if log == [] {
      assert Accept(log, v)[1..] == [];
    } else {
      AcceptedCount(log[1..], v);
      assert Accept(log, v)[1..] == Accept(log[1..], v);
    }
  }

  /** What one ideal step does to the number of accepted, delivered and evicted hops. */
  lemma StepCounts(m: Mailbox, log: seq<Record>, op: Op, c: Config)
    requires Refines(m, log) && ValidConfig(c) && Enabled(m, op)
    ensures var log' := IdealStep(log, m, op, c);
            && |log'| == |log| + (if Added(m, op, c).Some? then 1 else 0)
            && CountStatus(log', Delivered) == CountStatus(log, Delivered) + (if Handed(m, op, c).Some? then 1 else 0)
            && CountStatus(log', Evicted) == CountStatus(log, Evicted) + Dropped(m, op, c)
  {
    StepRefines(m, log, op, c);
    EvictedCount(log, Dropped(m, op, c));
    var kept := EvictOldest(log, Dropped(m, op, c));
    if Added(m, op, c).Some? {
      AcceptedCount(kept, Added(m, op, c).value);
    }
    DeliveredCount(Offered(log, m, op, c), InForce(m, op));
  }

  /** The statistics count the log, and the mailbox refines it. */
  ghost predicate Counted(m: Mailbox, log: seq<Record>, enqueued: nat, dequeued: nat, droppedOldest: nat) {
    && Refines(m, log)
    && enqueued == Min(|log|, USIZE_MAX)
    && dequeued == Min(CountStatus(log, Delivered), USIZE_MAX)
    && droppedOldest <= CountStatus(log, Evicted)
  }

  /** The statistics after one step, whatever the operation. */
  lemma StepCounted(m: Mailbox, log: seq<Record>, op: Op, c: Config, enqueued: nat, dequeued: nat, droppedOldest: nat)
    requires Counted(m, log, enqueued, dequeued, droppedOldest) && ValidConfig(c) && Enabled(m, op)
    ensures Counted(Apply(m, op, c), IdealStep(log, m, op, c),
                    if Added(m, op, c).Some? then SatAdd(enqueued, 1) else enqueued,
                    if Handed(m, op, c).Some? then SatAdd(dequeued, 1) else dequeued,
                    if Dropped(m, op, c) > 0 then droppedOldest + 1 else droppedOldest)
    ensures Counted(Apply(m, op, c), IdealStep(log, m, op, c),
                    if Added(m, op, c).Some? then SatAdd(enqueued, 1) else enqueued,
                    if Handed(m, op, c).Some? then SatAdd(dequeued, 1) else dequeued,
                    droppedOldest)
  {
    StepRefines(m, log, op, c);
    StepCounts(m, log, op, c);
  }

  /** A push that is not handed over, in terms of the queue's verdict. */
  lemma PushCounted(m: Mailbox, log: seq<Record>, v: Value, c: Config, enqueued: nat, dequeued: nat, droppedOldest: nat)
    requires Counted(m, log, enqueued, dequeued, droppedOldest) && ValidConfig(c)
    requires m.parked.Some? ==> !Matches(m.filter, v)
    ensures var (q, r) := Enqueue(m.queue, v, c.policy, c);
            && Apply(m, OpPush(v), c) == m.(queue := q)
            && Counted(m.(queue := q), IdealStep(log, m, OpPush(v), c),
                       if r.Accepted? then SatAdd(enqueued, 1) else enqueued, dequeued,
                       if r == Accepted(true) then droppedOldest + 1 else droppedOldest)
  {
    PushEffects(m, v, c);
    EvictIsSuffix(m.queue, MemorySize(v), c);
    StepCounted(m, log, OpPush(v), c, enqueued, dequeued, droppedOldest);
  }

  /** The two ways a park ends, with the statistics it leaves. */
  lemma ParkCounted(m: Mailbox, log: seq<Record>, flow: Flow, f: WaitFilter, c: Config, enqueued: nat, dequeued: nat,
                    droppedOldest: nat)
    requires Counted(m, log, enqueued, dequeued, droppedOldest) && ValidConfig(c) && m.parked.None?
    ensures var (q, v) := TakeFrom(m.queue, f);
            && (v.None? ==> q == m.queue)
            && Apply(m, OpPark(flow, f), c)
               == (if v.Some? then m.(queue := q)
                   else m.(epoch := (m.epoch + 1) % EPOCHS, parks := m.parks + 1, filter := f, parked := Some(flow)))
            && Counted(Apply(m, OpPark(flow, f), c), IdealStep(log, m, OpPark(flow, f), c),
                       enqueued, if v.Some? then SatAdd(dequeued, 1) else dequeued, droppedOldest)
  {
    StepCounted(m, log, OpPark(flow, f), c, enqueued, dequeued, droppedOldest);
  }

  class Inbox {
    const queue: MailboxQueue
    var parked: Option<Flow>
    var parkedFilter: WaitFilter
    var waitEpoch: u64
    var waitingSenders: seq<Waiting>
    var closed: bool
    var enqueued: nat
    var dequeued: nat
    var droppedOldest: nat
    ghost var parks: nat
    ghost var log: seq<Record>

    ghost function State(): Mailbox
      reads this, queue
    {
      Mailbox(queue.State(), parked, parkedFilter, waitEpoch, parks, waitingSenders, closed)
    }

    /**
     The inbox refines its log, and the statistics count the log: hops accepted, hops
     delivered, and at most as many drops as hops were really evicted.
     */
    ghost predicate Valid()
      reads this, queue
    {
      queue.Valid() && Counted(State(), log, enqueued, dequeued, droppedOldest)
    }

    /** The whole effect of one operation on the inbox and on its log. */
    twostate predicate Did(op: Op)
      reads this, queue
    {
      && Valid()
      && State() == Apply(old(State()), op, queue.config)
      && log == IdealStep(old(log), old(State()), op, queue.config)
    }

    constructor (config: Config)
      requires ValidConfig(config)
      ensures Valid() && fresh(queue) && queue.config == config
      ensures State() == EmptyMailbox() && log == []
    {
      queue := new MailboxQueue(config);
      parked, parkedFilter, waitEpoch, waitingSenders, closed := None, AnyHop, 0, [], false;
      enqueued, dequeued, droppedOldest := 0, 0, 0;
      parks, log := 0, [];
    }

    method CountEnqueue()
      modifies `enqueued
      ensures enqueued == SatAdd(old(enqueued), 1)
    {
      enqueued := SatAdd(enqueued, 1);
    }

    /** `enqueue_locked`: the queue's verdict, with its statistics. */
    method EnqueueLocked(v: Value, policy: Policy) returns (d: Delivery)
      requires queue.Valid()
      modifies queue, `enqueued, `droppedOldest
      ensures queue.Valid()
      ensures var (q, r) := Enqueue(old(queue.State()), v, policy, queue.config);
              && queue.State() == q
              && d == Deliver(r)
              && enqueued == (if r.Accepted? then SatAdd(old(enqueued), 1) else old(enqueued))
              && droppedOldest == old(droppedOldest) + (if r == Accepted(true) then 1 else 0)
    {
      var r := queue.TryEnqueue(v, policy);
      match r {
        case Accepted(evicted) =>
          if evicted {
            droppedOldest := droppedOldest + 1;
          }
          CountEnqueue();
        case _ =>
      }
      d := Deliver(r);
    }

    /** Hand the hop to the parked flow without using a queue slot. */
    method HandOver() returns (d: Delivery)
      requires parked.Some?
      modifies `parked, `parkedFilter, `enqueued, `dequeued
      ensures d == Handoff(old(parked).value)
      ensures State() == old(State()).(parked := None, filter := AnyHop)
      ensures enqueued == SatAdd(old(enqueued), 1) && dequeued == SatAdd(old(dequeued), 1)
    {
      d := Handoff(parked.value);
      parked, parkedFilter := None, AnyHop;
      dequeued := SatAdd(dequeued, 1);
      CountEnqueue();
    }

    /** A parked flow whose filter matches takes the hop; otherwise the queue decides. */
    method PushHop(v: Value) returns (d: Delivery)
      requires Valid()
      modifies this, queue
      ensures Did(OpPush(v))
      ensures d == Push(old(State()), v, queue.config).1
    {
      ghost var before, c := State(), queue.config;
      if parked.Some? && Matches(parkedFilter, v) {
        StepCounted(before, log, OpPush(v), c, enqueued, dequeued, droppedOldest);
      } else {
        PushCounted(before, log, v, c, enqueued, dequeued, droppedOldest);
      }
      log := IdealStep(log, before, OpPush(v), c);
      if parked.Some? && Matches(parkedFilter, v) {
        d := HandOver();
      } else {
        d := EnqueueLocked(v, queue.config.policy);
      }
    }

    method PushSystemHop(v: Value) returns (d: Delivery)
      requires Valid() && queue.bytes + MemorySize(v) <= USIZE_MAX
      modifies this, queue
      ensures Did(OpSystem(v))
      ensures d == PushSystem(old(State()), v).1
    {
      ghost var before, c := State(), queue.config;
      StepCounted(before, log, OpSystem(v), c, enqueued, dequeued, droppedOldest);
      log := IdealStep(log, before, OpSystem(v), c);
      if parked.Some? && Matches(parkedFilter, v) {
        d := HandOver();
      } else {
        queue.ForcePush(v);
        CountEnqueue();
        d := Queued;
      }
    }

    method TryPopFilter(f: WaitFilter) returns (v: Option<Value>)
      requires Valid()
      modifies this, queue
      ensures Did(OpPop(f))
      ensures v == DeliverOldest(old(log), f).1
    {
      ghost var before, c := State(), queue.config;
      TakeRefines(before, log, f);
      StepCounted(before, log, OpPop(f), c, enqueued, dequeued, droppedOldest);
      log := IdealStep(log, before, OpPop(f), c);
      v := queue.Take(f);
      if v.Some? {
        dequeued := SatAdd(dequeued, 1);
      }
    }

    /** Re-check the queue and park in one critical section. */
    method ParkFilter(flow: Flow, f: WaitFilter) returns (r: ParkResult)
      requires Valid() && parked.None?
      modifies this, queue
      ensures Did(OpPark(flow, f))
      ensures r == Park(old(State()), flow, f).1
    {
      ghost var before, c := State(), queue.config;
      ParkCounted(before, log, flow, f, c, enqueued, dequeued, droppedOldest);
      log := IdealStep(log, before, OpPark(flow, f), c);
      var v := queue.Take(f);
      if v.Some? {
        dequeued := SatAdd(dequeued, 1);
        r := Raced(flow.(pendingMessage := v));
      } else {
        r := InstallPark(flow, f);
      }
    }

    /** Every install bumps the epoch, wrapping, so an older deadline can be told apart. */
    method InstallPark(flow: Flow, f: WaitFilter) returns (r: ParkResult)
      modifies `parked, `parkedFilter, `waitEpoch, `parks
      ensures r == Installed(waitEpoch)
      ensures State() == old(State()).(parked := Some(flow), filter := f, parks := old(parks) + 1,
                                       epoch := (old(waitEpoch) + 1) % EPOCHS)
    {
      waitEpoch := (waitEpoch + 1) % EPOCHS;
      parks := parks + 1;
      parkedFilter := f;
      parked := Some(flow);
      r := Installed(waitEpoch);
    }

    method TakeIfCurrent(epoch: u64) returns (flow: Option<Flow>)
      requires Valid()
      modifies this, queue
      ensures Did(OpTimeout(epoch))
      ensures flow == TakeParkedAt(old(State()), epoch).1
    {
      ghost var before, c := State(), queue.config;
      StepRefines(before, log, OpTimeout(epoch), c);
      if waitEpoch != epoch {
        return None;
      }
      flow := parked;
      if parked.Some? {
        parked, parkedFilter := None, AnyHop;
      }
    }

    method TakeParkedFlow() returns (flow: Option<Flow>)
      requires Valid()
      modifies this, queue
      ensures Did(OpTakeParked)
      ensures flow == old(parked)
    {
      ghost var before, c := State(), queue.config;
      StepRefines(before, log, OpTakeParked, c);
      parkedFilter := AnyHop;
      flow := parked;
      parked := None;
    }

    method CloseInbox() returns (senders: seq<Flow>)
      requires Valid()
      modifies this, queue
      ensures Did(OpClose)
      ensures senders == Close(old(State())).1
    {
      ghost var before, c := State(), queue.config;
      StepRefines(before, log, OpClose, c);
      closed := true;
      senders := [];
      var i := 0;
      while i < |waitingSenders|
        invariant i == |senders| <= |waitingSenders|
        invariant forall j :: 0 <= j < i ==> senders[j] == waitingSenders[j].flow
      {
        senders := senders + [waitingSenders[i].flow];
        i := i + 1;
      }
      waitingSenders := [];
    }

    /** `false`: the inbox is closed and the sender is handed back. */
    method ParkWaitingSender(flow: Flow, v: Value) returns (ok: bool)
      requires Valid()
      modifies this, queue
      ensures Did(OpParkSender(flow, v))
      ensures ok <==> !old(closed)
      ensures ok ==> waitingSenders == old(waitingSenders) + [Waiting(flow, v)]
    {
      ghost var before, c := State(), queue.config;
      StepRefines(before, log, OpParkSender(flow, v), c);
      if closed {
        return false;
      }
      waitingSenders := waitingSenders + [Waiting(flow, v)];
      return true;
    }

    /** Admit the sender that has waited longest, if its hop fits now; otherwise it keeps its place. */
    method AdmitWaitingSender() returns (flow: Option<Flow>)
      requires Valid() && parked.None?
      modifies this, queue
      ensures Did(OpAdmit)
      ensures flow == AdmitSender(old(State()), queue.config).1
    {
      ghost var before, c := State(), queue.config;
      StepCounted(before, log, OpAdmit, c, enqueued, dequeued, droppedOldest);
      log := IdealStep(log, before, OpAdmit, c);
      if closed || waitingSenders == [] {
        return None;
      }
      var waiter := waitingSenders[0];
      waitingSenders := waitingSenders[1..];
      var d := EnqueueLocked(waiter.message, Reject);
      if d.Full? {
        waitingSenders := [waiter] + waitingSenders;
        assert waitingSenders == before.waiting;
        return None;
      }
      return Some(waiter.flow);
    }

    method TakeWaitingSender(id: FlowId) returns (flow: Option<Flow>)
      requires Valid()
      modifies this, queue
      ensures Did(OpTakeSender(id))
      ensures flow == TakeSender(old(State()), id).1
    {
      ghost var before, c := State(), queue.config;
      StepRefines(before, log, OpTakeSender(id), c);
      var i := 0;
      while i < |waitingSenders| && waitingSenders[i].flow.id != id
        invariant i <= |waitingSenders|
        invariant forall j :: 0 <= j < i ==> waitingSenders[j].flow.id != id
      {
        i := i + 1;
      }
      assert i == WaiterIndex(waitingSenders, id);
      if i == |waitingSenders| {
        return None;
      }
      flow := Some(waitingSenders[i].flow);
      waitingSenders := waitingSenders[..i] + waitingSenders[i + 1..];
    }
  }
}
