/**
 Where flows are (crates/byteflow/src/scheduler/{worker,finalize,timer}.rs): run queue, worker,
 timer, own mailbox slot or a waiting-sender queue, together with the side indices that
 must agree with it. Every scheduler step is built from the moves below: a flow is taken
 in hand from one place and put down in another.
 */
module Residence {
  import opened Wrappers
  import opened Values
  import opened MailboxSpec

  /** `Held` is in nobody's queue: in the hands of the worker, timer or finalizer at work. */
  datatype Place =
    | Ready
    | Running
    | Sleeping
    | Parked
    | WaitingIn(target: FlowId)
    | Held

  datatype Core = Core(
    place: map<FlowId, Place>,
    boxes: map<FlowId, Mailbox>,
    ready: map<FlowId, Flow>,
    running: map<FlowId, Flow>,
    sleeping: map<FlowId, Flow>,
    waitingAt: map<FlowId, FlowId>,
    byAsker: map<FlowId, FlowId>,
    byTarget: map<FlowId, set<FlowId>>,
    requestIds: map<FlowId, u64>)

  // ----- the invariant -----

  ghost predicate QueueOk(place: map<FlowId, Place>, queue: map<FlowId, Flow>, at: Place) {
    && (forall f :: f in queue <==> f in place && place[f] == at)
    && (forall f :: f in queue ==> queue[f].id == f)
  }

  /**
   A mailbox for every unfinished flow, open unless its owner is being finalized and
   occupied exactly when the flow is parked; a closed one keeps no senders.
   */
  ghost predicate BoxesOk(place: map<FlowId, Place>, boxes: map<FlowId, Mailbox>) {
    && (forall f :: f in place ==> f in boxes && (place[f] != Held ==> !boxes[f].closed))
    && (forall f :: f in place ==> (boxes[f].parked.Some? <==> place[f] == Parked))
    && (forall f :: f in boxes && boxes[f].parked.Some? ==> boxes[f].parked.value.id == f)
    && (forall f :: f in boxes && f !in place ==> boxes[f].closed && boxes[f].parked.None?)
    && (forall f :: f in boxes && boxes[f].closed ==> boxes[f].waiting == [])
  }

  function WaitIds(ws: seq<Waiting>): set<FlowId> {
    set i | 0 <= i < |ws| :: ws[i].flow.id
  }

  ghost predicate NoTwice(ws: seq<Waiting>) {
    forall i, j :: 0 <= i < j < |ws| ==> ws[i].flow.id != ws[j].flow.id
  }

  /** Waiting-sender queues and the sender index both say who waits where. */
  ghost predicate SendersOk(place: map<FlowId, Place>, boxes: map<FlowId, Mailbox>, waitingAt: map<FlowId, FlowId>) {
    && (forall t :: t in boxes ==> NoTwice(boxes[t].waiting))
    && (forall t, s :: t in boxes ==> (s in WaitIds(boxes[t].waiting) <==> s in place && place[s] == WaitingIn(t)))
    && (forall s :: s in place && place[s].WaitingIn? ==> place[s].target in place)
    && (forall s :: s in waitingAt <==> s in place && place[s].WaitingIn?)
    && (forall s :: s in waitingAt ==> place[s] == WaitingIn(waitingAt[s]))
  }

  /** The filter of an `Ask`: request id and the target it was put to. */
  predicate AskFilter(f: WaitFilter) {
    f.Correlation? && f.sender.Some?
  }

  /** The three maps of the ask index tell the same story. */
  ghost predicate IndexOk(byAsker: map<FlowId, FlowId>, byTarget: map<FlowId, set<FlowId>>,
                          requestIds: map<FlowId, u64>)
  {
    && (forall a :: a in byAsker <==> a in requestIds)
    && (forall t :: t in byTarget ==> byTarget[t] != {})
    && (forall t, a :: (t in byTarget && a in byTarget[t]) <==> (a in byAsker && byAsker[a] == t))
  }

  /** A flow that is in nobody's hands is in the ask index exactly when it is parked for an `Ask` reply. */
  ghost predicate AskersOk(place: map<FlowId, Place>, boxes: map<FlowId, Mailbox>, byAsker: map<FlowId, FlowId>,
                           requestIds: map<FlowId, u64>)
  {
    && (forall a :: a in byAsker ==> a in place && byAsker[a] in place)
    && (forall a :: a in byAsker && place[a] != Held ==>
          place[a] == Parked && a in boxes && a in requestIds && Asks(boxes[a].filter, byAsker[a], requestIds[a]))
    && (forall a :: a in place && place[a] == Parked && a in boxes && AskFilter(boxes[a].filter) ==> a in byAsker)
  }

  /** The filter a parked asker waits under. */
  predicate Asks(f: WaitFilter, target: FlowId, rid: u64) {
    AskFilter(f) && f.requestId == rid && f.sender.value == target
  }

  ghost predicate HeldOk(place: map<FlowId, Place>, held: set<FlowId>) {
    forall f :: f in held <==> f in place && place[f] == Held
  }

  ghost predicate CoreOk(c: Core, held: set<FlowId>) {
    && QueueOk(c.place, c.ready, Ready) && QueueOk(c.place, c.running, Running)
       && QueueOk(c.place, c.sleeping, Sleeping)
    && HeldOk(c.place, held)
    && BoxesOk(c.place, c.boxes)
    && SendersOk(c.place, c.boxes, c.waitingAt)
    && IndexOk(c.byAsker, c.byTarget, c.requestIds)
    && AskersOk(c.place, c.boxes, c.byAsker, c.requestIds)
  }

  // ----- taking a flow in hand -----

  function HoldReady(c: Core, f: FlowId): Core {
    c.(ready := c.ready - {f}, place := c.place[f := Held])
  }

  function HoldRunning(c: Core, f: FlowId): Core {
    c.(running := c.running - {f}, place := c.place[f := Held])
  }

  function HoldSleeping(c: Core, f: FlowId): Core {
    c.(sleeping := c.sleeping - {f}, place := c.place[f := Held])
  }

  function Vacated(m: Mailbox): Mailbox {
    TakeParked(m).0
  }

  function HoldParked(c: Core, f: FlowId): Core
    requires f in c.boxes
  {
    c.(boxes := c.boxes[f := Vacated(c.boxes[f])], place := c.place[f := Held])
  }

  function HoldWaiting(c: Core, s: FlowId, t: FlowId): Core
    requires t in c.boxes
  {
    c.(boxes := c.boxes[t := TakeSender(c.boxes[t], s).0], waitingAt := c.waitingAt - {s}, place := c.place[s := Held])
  }

  // ----- putting it down -----

  function PutReady(c: Core, flow: Flow): Core {
    c.(ready := c.ready[flow.id := flow], place := c.place[flow.id := Ready])
  }

  function PutRunning(c: Core, flow: Flow): Core {
    c.(running := c.running[flow.id := flow], place := c.place[flow.id := Running])
  }

  function PutSleeping(c: Core, flow: Flow): Core {
    c.(sleeping := c.sleeping[flow.id := flow], place := c.place[flow.id := Sleeping])
  }

  /** What the mailbox looks like with `flow` parked under `f`; epoch and counter move on. */
  function Occupied(m: Mailbox, flow: Flow, f: WaitFilter): Mailbox {
    m.(epoch := (m.epoch + 1) % EPOCHS, parks := m.parks + 1, filter := f, parked := Some(flow))
  }

  function PutParked(c: Core, flow: Flow, f: WaitFilter): Core
    requires flow.id in c.boxes
  {
    c.(boxes := c.boxes[flow.id := Occupied(c.boxes[flow.id], flow, f)], place := c.place[flow.id := Parked])
  }

  function PutWaiting(c: Core, flow: Flow, t: FlowId, hop: Value): Core
    requires t in c.boxes
  {
    c.(boxes := c.boxes[t := c.boxes[t].(waiting := c.boxes[t].waiting + [Waiting(flow, hop)])],
       waitingAt := c.waitingAt[flow.id := t], place := c.place[flow.id := WaitingIn(t)])
  }

  // ----- the ask index -----

  function AskInsert(c: Core, a: FlowId, t: FlowId, rid: u64): Core {
    c.(byAsker := c.byAsker[a := t], requestIds := c.requestIds[a := rid],
       byTarget := c.byTarget[t := (if t in c.byTarget then c.byTarget[t] else {}) + {a}])
  }

  /** The waiters of `t` without `a`; an empty set leaves the map. */
  function WaitersWithout(byTarget: map<FlowId, set<FlowId>>, t: FlowId, a: FlowId): map<FlowId, set<FlowId>> {
    if t !in byTarget then byTarget
    else if byTarget[t] - {a} == {} then byTarget - {t}
    else byTarget[t := byTarget[t] - {a}]
  }

  function AskRemove(c: Core, a: FlowId): Core {
    c.(byAsker := c.byAsker - {a}, requestIds := c.requestIds - {a},
       byTarget := if a in c.byAsker then WaitersWithout(c.byTarget, c.byAsker[a], a) else c.byTarget)
  }

  // ----- exits -----

  function WithBox(c: Core, f: FlowId, m: Mailbox): Core {
    c.(boxes := c.boxes[f := m])
  }

  /** The mailbox closes and its waiting senders are all in the finalizer's hands. */
  function CloseBox(c: Core, id: FlowId): Core
    requires id in c.boxes
  {
    var stranded := WaitIds(c.boxes[id].waiting);
    c.(boxes := c.boxes[id := Close(c.boxes[id]).0],
       waitingAt := c.waitingAt - stranded,
       place := Strand(c.place, stranded))
  }

  function Retire(c: Core, id: FlowId): Core {
    c.(place := c.place - {id})
  }

  /** A new flow with an empty mailbox, ready to run. */
  function Admit(c: Core, flow: Flow): Core {
    c.(place := c.place[flow.id := Ready], ready := c.ready[flow.id := flow],
       boxes := c.boxes[flow.id := EmptyMailbox()])
  }

  /** A held flow that is not being finalized. */
  ghost predicate InOpenHand(c: Core, held: set<FlowId>, f: FlowId) {
    f in held && f in c.boxes && !c.boxes[f].closed
  }

  // ----- what one change of place does to each part of the invariant -----

  lemma QueueRemove(place: map<FlowId, Place>, queue: map<FlowId, Flow>, at: Place, f: FlowId, to: Place)
    requires QueueOk(place, queue, at) && to != at
    ensures QueueOk(place[f := to], queue - {f}, at)
  {
  }

  lemma QueueOther(place: map<FlowId, Place>, queue: map<FlowId, Flow>, at: Place, f: FlowId, to: Place)
    requires QueueOk(place, queue, at) && (f in place ==> place[f] != at) && to != at
    ensures QueueOk(place[f := to], queue, at)
  {
  }

  lemma QueueAdd(place: map<FlowId, Place>, queue: map<FlowId, Flow>, at: Place, flow: Flow)
    requires QueueOk(place, queue, at)
    ensures QueueOk(place[flow.id := at], queue[flow.id := flow], at)
  {
  }

  lemma HeldAdd(place: map<FlowId, Place>, held: set<FlowId>, f: FlowId)
    requires HeldOk(place, held)
    ensures HeldOk(place[f := Held], held + {f})
  {
  }

  lemma HeldRemove(place: map<FlowId, Place>, held: set<FlowId>, f: FlowId, to: Place)
    requires HeldOk(place, held) && to != Held
    ensures HeldOk(place[f := to], held - {f})
  {
  }

  lemma BoxesMove(place: map<FlowId, Place>, boxes: map<FlowId, Mailbox>, f: FlowId, to: Place)
    requires BoxesOk(place, boxes) && f in place && place[f] != Parked && to != Parked
    requires to != Held ==> f in boxes && !boxes[f].closed
    ensures BoxesOk(place[f := to], boxes)
  {
  }

  lemma BoxesVacate(place: map<FlowId, Place>, boxes: map<FlowId, Mailbox>, f: FlowId)
    requires BoxesOk(place, boxes) && f in place
    ensures f in boxes && BoxesOk(place[f := Held], boxes[f := Vacated(boxes[f])])
  {
  }

  lemma BoxesOccupy(place: map<FlowId, Place>, boxes: map<FlowId, Mailbox>, flow: Flow, w: WaitFilter)
    requires BoxesOk(place, boxes) && flow.id in place && flow.id in boxes && !boxes[flow.id].closed
    ensures flow.id in boxes && BoxesOk(place[flow.id := Parked], boxes[flow.id := Occupied(boxes[flow.id], flow, w)])
  {
  }

  /** Changing the queue or the waiting senders of an open mailbox. */
  lemma BoxesContents(place: map<FlowId, Place>, boxes: map<FlowId, Mailbox>, t: FlowId, m: Mailbox)
    requires BoxesOk(place, boxes) && t in boxes
    requires m.closed == boxes[t].closed && m.parked == boxes[t].parked && (m.closed ==> m.waiting == [])
    ensures BoxesOk(place, boxes[t := m])
  {
  }

  lemma SendersMove(place: map<FlowId, Place>, boxes: map<FlowId, Mailbox>, waitingAt: map<FlowId, FlowId>,
                    f: FlowId, to: Place)
    requires SendersOk(place, boxes, waitingAt) && f in place && !place[f].WaitingIn? && !to.WaitingIn?
    ensures SendersOk(place[f := to], boxes, waitingAt)
  {
    hide WaitIds, NoTwice;
  }

  lemma SendersBox(place: map<FlowId, Place>, boxes: map<FlowId, Mailbox>, waitingAt: map<FlowId, FlowId>, t: FlowId,
                   m: Mailbox)
    requires SendersOk(place, boxes, waitingAt) && t in boxes && m.waiting == boxes[t].waiting
    ensures SendersOk(place, boxes[t := m], waitingAt)
  {
    hide WaitIds, NoTwice;
  }

  lemma AskersMove(place: map<FlowId, Place>, boxes: map<FlowId, Mailbox>, byAsker: map<FlowId, FlowId>,
                   requestIds: map<FlowId, u64>,
                   f: FlowId, to: Place)
    requires AskersOk(place, boxes, byAsker, requestIds) && (f in byAsker ==> to == Held) && to != Parked
    ensures AskersOk(place[f := to], boxes, byAsker, requestIds)
  {
    hide Asks, AskFilter;
  }

  lemma AskersBox(place: map<FlowId, Place>, boxes: map<FlowId, Mailbox>, byAsker: map<FlowId, FlowId>,
                  requestIds: map<FlowId, u64>,
                  t: FlowId, m: Mailbox)
    requires AskersOk(place, boxes, byAsker, requestIds)
    requires (t in boxes && m.filter == boxes[t].filter) || (t in place && place[t] == Held)
    ensures AskersOk(place, boxes[t := m], byAsker, requestIds)
  {
    hide Asks, AskFilter;
  }

  /** Parking: under an ask filter exactly for a flow that is in the index. */
  lemma AskersPark(place: map<FlowId, Place>, boxes: map<FlowId, Mailbox>, byAsker: map<FlowId, FlowId>,
                   requestIds: map<FlowId, u64>,
                   f: FlowId, m: Mailbox)
    requires AskersOk(place, boxes, byAsker, requestIds) && f in place
    requires f in byAsker <==> AskFilter(m.filter)
    requires f in byAsker ==> f in requestIds && Asks(m.filter, byAsker[f], requestIds[f])
    ensures AskersOk(place[f := Parked], boxes[f := m], byAsker, requestIds)
  {
    hide Asks, AskFilter;
  }

  lemma AskersInsert(place: map<FlowId, Place>, boxes: map<FlowId, Mailbox>, byAsker: map<FlowId, FlowId>,
                     requestIds: map<FlowId, u64>,
                     a: FlowId, t: FlowId, rid: u64)
    requires AskersOk(place, boxes, byAsker, requestIds) && a in place && place[a] == Held && t in place
    ensures AskersOk(place, boxes, byAsker[a := t], requestIds[a := rid])
  {
    hide Asks, AskFilter;
  }

  // ----- every move keeps the invariant -----

  lemma HoldReadyOk(c: Core, held: set<FlowId>, f: FlowId)
    requires CoreOk(c, held) && f in c.ready
    ensures CoreOk(HoldReady(c, f), held + {f})
  {
    InQueue(c.place, c.ready, Ready, f);
    hide QueueOk, HeldOk, BoxesOk, SendersOk, IndexOk, AskersOk;
    QueueRemove(c.place, c.ready, Ready, f, Held);
    QueueOther(c.place, c.running, Running, f, Held);
    QueueOther(c.place, c.sleeping, Sleeping, f, Held);
    MoveOk(c, held, f);
  }

  lemma HoldRunningOk(c: Core, held: set<FlowId>, f: FlowId)
    requires CoreOk(c, held) && f in c.running
    ensures CoreOk(HoldRunning(c, f), held + {f})
  {
    InQueue(c.place, c.running, Running, f);
    hide QueueOk, HeldOk, BoxesOk, SendersOk, IndexOk, AskersOk;
    QueueRemove(c.place, c.running, Running, f, Held);
    QueueOther(c.place, c.ready, Ready, f, Held);
    QueueOther(c.place, c.sleeping, Sleeping, f, Held);
    MoveOk(c, held, f);
  }

  lemma HoldSleepingOk(c: Core, held: set<FlowId>, f: FlowId)
    requires CoreOk(c, held) && f in c.sleeping
    ensures CoreOk(HoldSleeping(c, f), held + {f})
  {
    InQueue(c.place, c.sleeping, Sleeping, f);
    hide QueueOk, HeldOk, BoxesOk, SendersOk, IndexOk, AskersOk;
    QueueRemove(c.place, c.sleeping, Sleeping, f, Held);
    QueueOther(c.place, c.ready, Ready, f, Held);
    QueueOther(c.place, c.running, Running, f, Held);
    MoveOk(c, held, f);
  }

  lemma InQueue(place: map<FlowId, Place>, queue: map<FlowId, Flow>, at: Place, f: FlowId)
    requires QueueOk(place, queue, at) && f in queue
    ensures f in place && place[f] == at && queue[f].id == f
  {
  }

  /** Taking a flow from a queue: the parts that do not look at queues. */
  lemma MoveOk(c: Core, held: set<FlowId>, f: FlowId)
    requires CoreOk(c, held) && f in c.place && c.place[f] != Parked && !c.place[f].WaitingIn?
    ensures HeldOk(c.place[f := Held], held + {f}) && BoxesOk(c.place[f := Held], c.boxes)
    ensures SendersOk(c.place[f := Held], c.boxes, c.waitingAt)
    ensures AskersOk(c.place[f := Held], c.boxes, c.byAsker, c.requestIds)
  {
    hide QueueOk, HeldOk, BoxesOk, SendersOk, IndexOk, AskersOk;
    HeldAdd(c.place, held, f);
    BoxesMove(c.place, c.boxes, f, Held);
    SendersMove(c.place, c.boxes, c.waitingAt, f, Held);
    AskersMove(c.place, c.boxes, c.byAsker, c.requestIds, f, Held);
  }

  /** Putting a flow in a queue: the same. */
  lemma PutOk(c: Core, held: set<FlowId>, f: FlowId, to: Place)
    requires CoreOk(c, held) && InOpenHand(c, held, f) && f !in c.byAsker && (to.Ready? || to.Running? || to.Sleeping?)
    ensures f in c.place && c.place[f] == Held
    ensures HeldOk(c.place[f := to], held - {f}) && BoxesOk(c.place[f := to], c.boxes)
    ensures SendersOk(c.place[f := to], c.boxes, c.waitingAt)
    ensures AskersOk(c.place[f := to], c.boxes, c.byAsker, c.requestIds)
  {
    InHand(c, held, f);
    hide QueueOk, HeldOk, BoxesOk, SendersOk, IndexOk, AskersOk;
    HeldRemove(c.place, held, f, to);
    BoxesMove(c.place, c.boxes, f, to);
    SendersMove(c.place, c.boxes, c.waitingAt, f, to);
    AskersMove(c.place, c.boxes, c.byAsker, c.requestIds, f, to);
  }

  lemma InHand(c: Core, held: set<FlowId>, f: FlowId)
    requires CoreOk(c, held) && f in held
    ensures f in c.place && c.place[f] == Held && f in c.boxes && c.boxes[f].parked.None?
  {
    hide QueueOk, SendersOk, IndexOk, AskersOk;
  }

  lemma PutReadyOk(c: Core, held: set<FlowId>, flow: Flow)
    requires CoreOk(c, held) && InOpenHand(c, held, flow.id) && flow.id !in c.byAsker
    ensures CoreOk(PutReady(c, flow), held - {flow.id})
  {
    hide QueueOk, HeldOk, BoxesOk, SendersOk, IndexOk, AskersOk;
    PutOk(c, held, flow.id, Ready);
    QueueAdd(c.place, c.ready, Ready, flow);
    QueueOther(c.place, c.running, Running, flow.id, Ready);
    QueueOther(c.place, c.sleeping, Sleeping, flow.id, Ready);
  }

  lemma PutRunningOk(c: Core, held: set<FlowId>, flow: Flow)
    requires CoreOk(c, held) && InOpenHand(c, held, flow.id) && flow.id !in c.byAsker
    ensures CoreOk(PutRunning(c, flow), held - {flow.id})
  {
    hide QueueOk, HeldOk, BoxesOk, SendersOk, IndexOk, AskersOk;
    PutOk(c, held, flow.id, Running);
    QueueAdd(c.place, c.running, Running, flow);
    QueueOther(c.place, c.ready, Ready, flow.id, Running);
    QueueOther(c.place, c.sleeping, Sleeping, flow.id, Running);
  }

  lemma PutSleepingOk(c: Core, held: set<FlowId>, flow: Flow)
    requires CoreOk(c, held) && InOpenHand(c, held, flow.id) && flow.id !in c.byAsker
    ensures CoreOk(PutSleeping(c, flow), held - {flow.id})
  {
    hide QueueOk, HeldOk, BoxesOk, SendersOk, IndexOk, AskersOk;
    PutOk(c, held, flow.id, Sleeping);
    QueueAdd(c.place, c.sleeping, Sleeping, flow);
    QueueOther(c.place, c.ready, Ready, flow.id, Sleeping);
    QueueOther(c.place, c.running, Running, flow.id, Sleeping);
  }

  /** A flow moves between places that are no queues. */
  lemma QueuesElsewhere(c: Core, held: set<FlowId>, f: FlowId, to: Place)
    requires CoreOk(c, held) && f in c.place && !to.Ready? && !to.Running? && !to.Sleeping?
    requires !c.place[f].Ready? && !c.place[f].Running? && !c.place[f].Sleeping?
    ensures QueueOk(c.place[f := to], c.ready, Ready) && QueueOk(c.place[f := to], c.running, Running)
    ensures QueueOk(c.place[f := to], c.sleeping, Sleeping)
  {
    hide QueueOk, HeldOk, BoxesOk, SendersOk, IndexOk, AskersOk;
    QueueOther(c.place, c.ready, Ready, f, to);
    QueueOther(c.place, c.running, Running, f, to);
    QueueOther(c.place, c.sleeping, Sleeping, f, to);
  }

  lemma HoldParkedOk(c: Core, held: set<FlowId>, f: FlowId)
    requires CoreOk(c, held) && f in c.place && c.place[f] == Parked
    ensures f in c.boxes && CoreOk(HoldParked(c, f), held + {f})
  {
    hide QueueOk, HeldOk, BoxesOk, SendersOk, IndexOk, AskersOk;
    QueuesElsewhere(c, held, f, Held);
    HeldAdd(c.place, held, f);
    BoxesVacate(c.place, c.boxes, f);
    SendersMove(c.place, c.boxes, c.waitingAt, f, Held);
    SendersBox(c.place[f := Held], c.boxes, c.waitingAt, f, Vacated(c.boxes[f]));
    AskersMove(c.place, c.boxes, c.byAsker, c.requestIds, f, Held);
    AskersBox(c.place[f := Held], c.boxes, c.byAsker, c.requestIds, f, Vacated(c.boxes[f]));
  }

  /** Only the hops in the queue change. */
  lemma WithBoxOk(c: Core, held: set<FlowId>, f: FlowId, m: Mailbox)
    requires CoreOk(c, held) && f in c.boxes
    requires m.(queue := c.boxes[f].queue) == c.boxes[f]
    ensures CoreOk(WithBox(c, f, m), held)
  {
    ClosedHasNoSenders(c, held, f);
    hide QueueOk, HeldOk, BoxesOk, SendersOk, IndexOk, AskersOk;
    BoxesContents(c.place, c.boxes, f, m);
    SendersBox(c.place, c.boxes, c.waitingAt, f, m);
    AskersBox(c.place, c.boxes, c.byAsker, c.requestIds, f, m);
  }

  lemma ClosedHasNoSenders(c: Core, held: set<FlowId>, f: FlowId)
    requires CoreOk(c, held) && f in c.boxes
    ensures c.boxes[f].closed ==> c.boxes[f].waiting == []
    ensures f !in c.place ==> c.boxes[f].closed
  {
    hide QueueOk, HeldOk, SendersOk, IndexOk, AskersOk;
  }

  lemma PutParkedParts(c: Core, held: set<FlowId>, flow: Flow, f: WaitFilter)
    requires CoreOk(c, held) && InOpenHand(c, held, flow.id)
    ensures flow.id in c.boxes && flow.id in c.place
    ensures var p := PutParked(c, flow, f);
            && QueueOk(p.place, p.ready, Ready) && QueueOk(p.place, p.running, Running)
               && QueueOk(p.place, p.sleeping, Sleeping)
            && HeldOk(p.place, held - {flow.id}) && BoxesOk(p.place, p.boxes)
               && SendersOk(p.place, p.boxes, p.waitingAt)
  {
    InHand(c, held, flow.id);
    hide QueueOk, HeldOk, BoxesOk, SendersOk, IndexOk, AskersOk;
    QueuesElsewhere(c, held, flow.id, Parked);
    HeldRemove(c.place, held, flow.id, Parked);
    BoxesOccupy(c.place, c.boxes, flow, f);
    SendersMove(c.place, c.boxes, c.waitingAt, flow.id, Parked);
    SendersBox(c.place[flow.id := Parked], c.boxes, c.waitingAt, flow.id, Occupied(c.boxes[flow.id], flow, f));
  }

  /** Parking for a plain receive. */
  lemma PutParkedOk(c: Core, held: set<FlowId>, flow: Flow, f: WaitFilter)
    requires CoreOk(c, held) && InOpenHand(c, held, flow.id) && flow.id !in c.byAsker && !AskFilter(f)
    ensures flow.id in c.boxes && CoreOk(PutParked(c, flow, f), held - {flow.id})
  {
    hide QueueOk, HeldOk, BoxesOk, SendersOk, IndexOk, AskersOk;
    PutParkedParts(c, held, flow, f);
    AskersPark(c.place, c.boxes, c.byAsker, c.requestIds, flow.id, Occupied(c.boxes[flow.id], flow, f));
  }

  /** Parking for the reply to an `Ask` that is already in the index. */
  lemma PutAskingOk(c: Core, held: set<FlowId>, flow: Flow, target: u64, rid: u64)
    requires CoreOk(c, held) && InOpenHand(c, held, flow.id) && flow.id in c.byAsker
    requires c.byAsker[flow.id] == target && flow.id in c.requestIds && c.requestIds[flow.id] == rid
    ensures flow.id in c.boxes && CoreOk(PutParked(c, flow, Correlation(rid, Some(target))), held - {flow.id})
  {
    hide QueueOk, HeldOk, BoxesOk, SendersOk, IndexOk, AskersOk;
    PutParkedParts(c, held, flow, Correlation(rid, Some(target)));
    AskersPark(c.place, c.boxes, c.byAsker, c.requestIds, flow.id,
               Occupied(c.boxes[flow.id], flow, Correlation(rid, Some(target))));
  }

  lemma IndexInsert(byAsker: map<FlowId, FlowId>, byTarget: map<FlowId, set<FlowId>>, requestIds: map<FlowId, u64>,
                    a: FlowId, t: FlowId, rid: u64)
    requires IndexOk(byAsker, byTarget, requestIds) && a !in byAsker
    ensures IndexOk(byAsker[a := t], byTarget[t := (if t in byTarget then byTarget[t] else {}) + {a}],
                    requestIds[a := rid])
  {
  }

  lemma AskInsertOk(c: Core, held: set<FlowId>, a: FlowId, t: FlowId, rid: u64)
    requires CoreOk(c, held) && a in held && a !in c.byAsker && t in c.place
    ensures CoreOk(AskInsert(c, a, t, rid), held)
  {
    InHand(c, held, a);
    hide QueueOk, HeldOk, BoxesOk, SendersOk, IndexOk, AskersOk;
    IndexInsert(c.byAsker, c.byTarget, c.requestIds, a, t, rid);
    AskersInsert(c.place, c.boxes, c.byAsker, c.requestIds, a, t, rid);
  }

  lemma IndexRemove(c: Core, a: FlowId)
    requires IndexOk(c.byAsker, c.byTarget, c.requestIds)
    ensures var r := AskRemove(c, a);
            && IndexOk(r.byAsker, r.byTarget, r.requestIds) && a !in r.byAsker
            && (forall x :: x in r.byAsker <==> x in c.byAsker && x != a)
            && (forall x :: x in r.byAsker ==>
                  r.byAsker[x] == c.byAsker[x] && x in c.requestIds && r.requestIds[x] == c.requestIds[x])
  {
    var r := AskRemove(c, a);
    if a in c.byAsker {
      var t := c.byAsker[a];
      assert a in c.byTarget[t];
    }
  }

  /** A flow in hand, or one not parked for an `Ask`, leaves the index. */
  lemma AskRemoveOk(c: Core, held: set<FlowId>, a: FlowId)
    requires CoreOk(c, held) && (a in c.place && c.place[a] == Parked && a in c.boxes ==> !AskFilter(c.boxes[a].filter))
    ensures CoreOk(AskRemove(c, a), held) && a !in AskRemove(c, a).byAsker
  {
    hide QueueOk, HeldOk, BoxesOk, SendersOk, IndexOk, AskersOk, AskRemove;
    IndexRemove(c, a);
    AskRemoveFrame(c, a);
    AskersRemove(c, a);
  }

  lemma AskersRemove(c: Core, a: FlowId)
    requires AskersOk(c.place, c.boxes, c.byAsker, c.requestIds) && IndexOk(c.byAsker, c.byTarget, c.requestIds)
    requires a in c.place && c.place[a] == Parked && a in c.boxes ==> !AskFilter(c.boxes[a].filter)
    ensures AskersOk(c.place, c.boxes, AskRemove(c, a).byAsker, AskRemove(c, a).requestIds)
  {
    IndexRemove(c, a);
    hide IndexOk, Asks, AskFilter, AskRemove;
  }

  lemma AskRemoveFrame(c: Core, a: FlowId)
    ensures var r := AskRemove(c, a);
            r == c.(byAsker := r.byAsker, byTarget := r.byTarget, requestIds := r.requestIds)
  {
    hide WaitersWithout;
  }

  lemma WaitIdsPush(ws: seq<Waiting>, w: Waiting)
    ensures WaitIds(ws + [w]) == WaitIds(ws) + {w.flow.id}
    ensures NoTwice(ws) && w.flow.id !in WaitIds(ws) ==> NoTwice(ws + [w])
  {
    var all := ws + [w];
    assert all[|ws|] == w;
    assert forall i :: 0 <= i < |ws| ==> all[i] == ws[i];
  }

  lemma WaitIdsTake(m: Mailbox, s: FlowId)
    requires NoTwice(m.waiting)
    ensures var m' := TakeSender(m, s).0;
            && WaitIds(m'.waiting) == WaitIds(m.waiting) - {s} && NoTwice(m'.waiting)
            && m'.(waiting := m.waiting) == m
    ensures TakeSender(m, s).1.Some? <==> s in WaitIds(m.waiting)
    ensures TakeSender(m, s).1.Some? ==> TakeSender(m, s).1.value.id == s
  {
    hide WaitIds, NoTwice;
    var ws, i := m.waiting, WaiterIndex(m.waiting, s);
    FoundIsIn(ws, s);
    if i < |ws| {
      WaitIdsWithout(ws, i);
    }
  }

  lemma FoundIsIn(ws: seq<Waiting>, s: FlowId)
    ensures WaiterIndex(ws, s) < |ws| <==> s in WaitIds(ws)
    ensures s !in WaitIds(ws) ==> WaitIds(ws) - {s} == WaitIds(ws)
  {
  }

  lemma WaitIdsWithout(ws: seq<Waiting>, i: nat)
    requires NoTwice(ws) && i < |ws|
    ensures var rest := ws[..i] + ws[i + 1..];
            WaitIds(rest) == WaitIds(ws) - {ws[i].flow.id} && NoTwice(rest)
  {
    var rest := ws[..i] + ws[i + 1..];
    forall x ensures x in WaitIds(rest) <==> x in WaitIds(ws) && x != ws[i].flow.id {
      if x in WaitIds(ws) && x != ws[i].flow.id {
        var j :| 0 <= j < |ws| && ws[j].flow.id == x;
        assert rest[if j < i then j else j - 1] == ws[j];
      }
      if x in WaitIds(rest) {
        var j :| 0 <= j < |rest| && rest[j].flow.id == x;
        assert rest[j] == ws[if j < i then j else j + 1];
      }
    }
  }

  lemma SendersPush(place: map<FlowId, Place>, boxes: map<FlowId, Mailbox>, waitingAt: map<FlowId, FlowId>, flow: Flow,
                    t: FlowId, m: Mailbox, hop: Value)
    requires SendersOk(place, boxes, waitingAt) && flow.id in place && place[flow.id] == Held && t in boxes
             && t in place
    requires m.waiting == boxes[t].waiting + [Waiting(flow, hop)]
    ensures SendersOk(place[flow.id := WaitingIn(t)], boxes[t := m], waitingAt[flow.id := t])
  {
    WaitIdsPush(boxes[t].waiting, Waiting(flow, hop));
    hide WaitIds, NoTwice;
  }

  lemma SendersTake(place: map<FlowId, Place>, boxes: map<FlowId, Mailbox>, waitingAt: map<FlowId, FlowId>, s: FlowId,
                    t: FlowId, m: Mailbox)
    requires SendersOk(place, boxes, waitingAt) && s in place && place[s] == WaitingIn(t) && t in boxes
    requires WaitIds(m.waiting) == WaitIds(boxes[t].waiting) - {s} && NoTwice(m.waiting)
    ensures SendersOk(place[s := Held], boxes[t := m], waitingAt - {s})
  {
    hide WaitIds, NoTwice;
  }

  lemma PutWaitingOk(c: Core, held: set<FlowId>, flow: Flow, t: FlowId, hop: Value)
    requires CoreOk(c, held) && InOpenHand(c, held, flow.id) && flow.id !in c.byAsker
    requires t in c.place && t in c.boxes && !c.boxes[t].closed
    ensures CoreOk(PutWaiting(c, flow, t, hop), held - {flow.id})
  {
    InHand(c, held, flow.id);
    OpenBox(c, held, t);
    var m := c.boxes[t].(waiting := c.boxes[t].waiting + [Waiting(flow, hop)]);
    hide QueueOk, HeldOk, BoxesOk, SendersOk, IndexOk, AskersOk;
    QueuesElsewhere(c, held, flow.id, WaitingIn(t));
    HeldRemove(c.place, held, flow.id, WaitingIn(t));
    BoxesMove(c.place, c.boxes, flow.id, WaitingIn(t));
    BoxesContents(c.place[flow.id := WaitingIn(t)], c.boxes, t, m);
    SendersPush(c.place, c.boxes, c.waitingAt, flow, t, m, hop);
    AskersMove(c.place, c.boxes, c.byAsker, c.requestIds, flow.id, WaitingIn(t));
    AskersBox(c.place[flow.id := WaitingIn(t)], c.boxes, c.byAsker, c.requestIds, t, m);
  }

  lemma OpenBox(c: Core, held: set<FlowId>, t: FlowId)
    requires CoreOk(c, held) && t in c.place
    ensures t in c.boxes && NoTwice(c.boxes[t].waiting)
    ensures c.place[t] != Held ==> !c.boxes[t].closed
    ensures c.boxes[t].closed ==> c.boxes[t].waiting == []
    ensures c.boxes[t].parked.Some? <==> c.place[t] == Parked
    ensures c.boxes[t].parked.Some? ==> c.boxes[t].parked.value.id == t
  {
    hide QueueOk, HeldOk, IndexOk, AskersOk, WaitIds, NoTwice;
  }

  lemma SenderPlace(c: Core, held: set<FlowId>, s: FlowId)
    requires CoreOk(c, held) && s in c.waitingAt
    ensures var t := c.waitingAt[s];
            s in c.place && c.place[s] == WaitingIn(t) && t in c.place && t in c.boxes
            && s in WaitIds(c.boxes[t].waiting)
  {
    hide QueueOk, HeldOk, IndexOk, AskersOk, WaitIds, NoTwice;
  }

  /** Taking a waiting sender out of its target's queue. */
  lemma HoldWaitingOk(c: Core, held: set<FlowId>, s: FlowId, t: FlowId)
    requires CoreOk(c, held) && s in c.waitingAt && c.waitingAt[s] == t
    ensures t in c.boxes && CoreOk(HoldWaiting(c, s, t), held + {s})
    ensures TakeSender(c.boxes[t], s).1.Some? && TakeSender(c.boxes[t], s).1.value.id == s
  {
    SenderPlace(c, held, s);
    OpenBox(c, held, t);
    WaitIdsTake(c.boxes[t], s);
    var m := TakeSender(c.boxes[t], s).0;
    hide QueueOk, HeldOk, BoxesOk, SendersOk, IndexOk, AskersOk, TakeSender, WaitIds, NoTwice;
    QueuesElsewhere(c, held, s, Held);
    HeldAdd(c.place, held, s);
    BoxesMove(c.place, c.boxes, s, Held);
    BoxesContents(c.place[s := Held], c.boxes, t, m);
    SendersTake(c.place, c.boxes, c.waitingAt, s, t, m);
    AskersMove(c.place, c.boxes, c.byAsker, c.requestIds, s, Held);
    AskersBox(c.place[s := Held], c.boxes, c.byAsker, c.requestIds, t, m);
  }

  // ----- exits -----

  /** All of `stranded` change from waiting for `id` to being held. */
  function Strand(place: map<FlowId, Place>, stranded: set<FlowId>): map<FlowId, Place> {
    map f | f in place :: if f in stranded then Held else place[f]
  }

  ghost predicate AllWaitFor(place: map<FlowId, Place>, stranded: set<FlowId>, id: FlowId) {
    forall f :: f in stranded ==> f in place && place[f] == WaitingIn(id)
  }

  lemma QueueStrand(place: map<FlowId, Place>, queue: map<FlowId, Flow>, at: Place, stranded: set<FlowId>, id: FlowId)
    requires QueueOk(place, queue, at) && AllWaitFor(place, stranded, id) && !at.WaitingIn? && at != Held
    ensures QueueOk(Strand(place, stranded), queue, at)
  {
  }

  lemma HeldStrand(place: map<FlowId, Place>, held: set<FlowId>, stranded: set<FlowId>, id: FlowId)
    requires HeldOk(place, held) && AllWaitFor(place, stranded, id)
    ensures HeldOk(Strand(place, stranded), held + stranded)
  {
  }

  lemma BoxesStrand(place: map<FlowId, Place>, boxes: map<FlowId, Mailbox>, stranded: set<FlowId>, id: FlowId)
    requires BoxesOk(place, boxes) && AllWaitFor(place, stranded, id)
    ensures BoxesOk(Strand(place, stranded), boxes)
  {
  }

  lemma BoxesClose(place: map<FlowId, Place>, boxes: map<FlowId, Mailbox>, id: FlowId, m: Mailbox)
    requires BoxesOk(place, boxes) && id in place && place[id] == Held && id in boxes
    requires m.closed && m.waiting == [] && m.parked == boxes[id].parked
    ensures BoxesOk(place, boxes[id := m])
  {
  }

  lemma SendersStrand(place: map<FlowId, Place>, boxes: map<FlowId, Mailbox>, waitingAt: map<FlowId, FlowId>,
                      id: FlowId, m: Mailbox)
    requires SendersOk(place, boxes, waitingAt) && id in boxes && m.waiting == []
    ensures var stranded := WaitIds(boxes[id].waiting);
            && AllWaitFor(place, stranded, id)
            && SendersOk(Strand(place, stranded), boxes[id := m], waitingAt - stranded)
  {
    var stranded := WaitIds(boxes[id].waiting);
    assert WaitIds([]) == {} && NoTwice([]);
    hide WaitIds, NoTwice;
    assert AllWaitFor(place, stranded, id);
  }

  lemma AskersStrand(place: map<FlowId, Place>, boxes: map<FlowId, Mailbox>, byAsker: map<FlowId, FlowId>,
                     requestIds: map<FlowId, u64>,
                     stranded: set<FlowId>, id: FlowId)
    requires AskersOk(place, boxes, byAsker, requestIds) && AllWaitFor(place, stranded, id)
    ensures AskersOk(Strand(place, stranded), boxes, byAsker, requestIds)
  {
    hide Asks, AskFilter;
  }

  lemma CloseBoxOk(c: Core, held: set<FlowId>, id: FlowId)
    requires CoreOk(c, held) && id in held
    ensures id in c.boxes && CoreOk(CloseBox(c, id), held + WaitIds(c.boxes[id].waiting))
    ensures AllWaitFor(c.place, WaitIds(c.boxes[id].waiting), id)
  {
    InHand(c, held, id);
    var stranded := WaitIds(c.boxes[id].waiting);
    var m := Close(c.boxes[id]).0;
    hide QueueOk, HeldOk, BoxesOk, SendersOk, IndexOk, AskersOk, WaitIds, AllWaitFor;
    SendersStrand(c.place, c.boxes, c.waitingAt, id, m);
    QueueStrand(c.place, c.ready, Ready, stranded, id);
    QueueStrand(c.place, c.running, Running, stranded, id);
    QueueStrand(c.place, c.sleeping, Sleeping, stranded, id);
    HeldStrand(c.place, held, stranded, id);
    BoxesClose(c.place, c.boxes, id, m);
    BoxesStrand(c.place, c.boxes[id := m], stranded, id);
    AskersStrand(c.place, c.boxes, c.byAsker, c.requestIds, stranded, id);
    StrandedIsHeld(c.place, stranded, id);
    AskersBox(Strand(c.place, stranded), c.boxes, c.byAsker, c.requestIds, id, m);
  }

  lemma StrandedIsHeld(place: map<FlowId, Place>, stranded: set<FlowId>, id: FlowId)
    requires id in place && place[id] == Held
    ensures id in Strand(place, stranded) && Strand(place, stranded)[id] == Held
  {
  }

  lemma RetireParts(c: Core, held: set<FlowId>, id: FlowId)
    requires CoreOk(c, held) && id in held && id in c.boxes && c.boxes[id].closed
    ensures QueueOk(c.place - {id}, c.ready, Ready) && QueueOk(c.place - {id}, c.running, Running)
            && QueueOk(c.place - {id}, c.sleeping, Sleeping)
    ensures HeldOk(c.place - {id}, held - {id}) && BoxesOk(c.place - {id}, c.boxes)
  {
    hide SendersOk, IndexOk, AskersOk;
  }

  lemma SendersRetire(place: map<FlowId, Place>, boxes: map<FlowId, Mailbox>, waitingAt: map<FlowId, FlowId>,
                      id: FlowId)
    requires SendersOk(place, boxes, waitingAt) && id in place && place[id] == Held && id in boxes
             && boxes[id].waiting == []
    ensures SendersOk(place - {id}, boxes, waitingAt)
  {
    assert WaitIds([]) == {};
    hide WaitIds, NoTwice;
    assert forall s :: s in place ==> place[s] != WaitingIn(id);
  }

  lemma AskersRetire(c: Core, id: FlowId)
    requires AskersOk(c.place, c.boxes, c.byAsker, c.requestIds) && IndexOk(c.byAsker, c.byTarget, c.requestIds)
    requires id in c.place && id !in c.byAsker && id !in c.byTarget
    ensures AskersOk(c.place - {id}, c.boxes, c.byAsker, c.requestIds)
  {
    hide Asks, AskFilter;
  }

  /** The flow is gone: nobody waits for it, in it or on it any more. */
  lemma RetireOk(c: Core, held: set<FlowId>, id: FlowId)
    requires CoreOk(c, held) && id in held && id in c.boxes && c.boxes[id].closed && id !in c.byAsker
             && id !in c.byTarget
    ensures CoreOk(Retire(c, id), held - {id})
    ensures forall s :: s in c.waitingAt ==> s != id && c.waitingAt[s] != id
  {
    InHand(c, held, id);
    ClosedHasNoSenders(c, held, id);
    RetireParts(c, held, id);
    hide QueueOk, HeldOk, BoxesOk, SendersOk, IndexOk, AskersOk;
    SendersRetire(c.place, c.boxes, c.waitingAt, id);
    AskersRetire(c, id);
    NobodyWaits(c.place, c.boxes, c.waitingAt, id);
  }

  lemma NobodyWaits(place: map<FlowId, Place>, boxes: map<FlowId, Mailbox>, waitingAt: map<FlowId, FlowId>, id: FlowId)
    requires SendersOk(place, boxes, waitingAt) && id in place && place[id] == Held && id in boxes
             && boxes[id].waiting == []
    ensures forall s :: s in waitingAt ==> s != id && waitingAt[s] != id
  {
    assert WaitIds([]) == {};
    hide WaitIds, NoTwice;
  }

  // ----- births -----

  lemma AdmitOk(c: Core, held: set<FlowId>, flow: Flow)
    requires CoreOk(c, held) && flow.id !in c.place && flow.id !in c.boxes
    ensures CoreOk(Admit(c, flow), held)
  {
    hide QueueOk, HeldOk, BoxesOk, SendersOk, IndexOk, AskersOk;
    QueueAdd(c.place, c.ready, Ready, flow);
    QueueOther(c.place, c.running, Running, flow.id, Ready);
    QueueOther(c.place, c.sleeping, Sleeping, flow.id, Ready);
    AdmitParts(c, held, flow);
    SendersAdmit(c.place, c.boxes, c.waitingAt, flow.id);
    AskersAdmit(c.place, c.boxes, c.byAsker, c.requestIds, flow.id);
  }

  lemma AdmitParts(c: Core, held: set<FlowId>, flow: Flow)
    requires CoreOk(c, held) && flow.id !in c.place && flow.id !in c.boxes
    ensures HeldOk(c.place[flow.id := Ready], held)
            && BoxesOk(c.place[flow.id := Ready], c.boxes[flow.id := EmptyMailbox()])
  {
    hide QueueOk, SendersOk, IndexOk, AskersOk;
  }

  lemma SendersAdmit(place: map<FlowId, Place>, boxes: map<FlowId, Mailbox>, waitingAt: map<FlowId, FlowId>, f: FlowId)
    requires SendersOk(place, boxes, waitingAt) && f !in place && f !in boxes
    ensures SendersOk(place[f := Ready], boxes[f := EmptyMailbox()], waitingAt)
  {
    assert WaitIds([]) == {} && NoTwice([]);
    hide WaitIds, NoTwice;
  }

  lemma AskersAdmit(place: map<FlowId, Place>, boxes: map<FlowId, Mailbox>, byAsker: map<FlowId, FlowId>,
                    requestIds: map<FlowId, u64>, f: FlowId)
    requires AskersOk(place, boxes, byAsker, requestIds) && f !in place && f !in boxes
    ensures AskersOk(place[f := Ready], boxes[f := EmptyMailbox()], byAsker, requestIds)
  {
    hide Asks, AskFilter;
  }
}
