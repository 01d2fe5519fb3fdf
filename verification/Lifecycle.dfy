/**
 Exit reasons, links, monitors and work lists, and what the moves of an exit do to the places
 of flows (crates/byteflow/src/scheduler/{finalize,monitor,link}.rs): stranded senders, orphaned
 asks, DOWN hops and kills. `Tame` collects what no part of an exit ever does.
 */
module Lifecycle {
  import opened Wrappers
  import opened Values
  import opened MailboxSpec
  import opened Residence
  import Capabilities

  // ----- exit reasons, relations, work lists -----

  datatype Reason = Normal | Shutdown | Killed | Fault | MailboxOverflow | Supervisor | Link

  predicate Abnormal(r: Reason) {
    !r.Normal?
  }

  function ReasonCode(r: Reason): u64 {
    match r
    case Normal => 0 case Shutdown => 1 case Killed => 2 case Fault => 3
    case MailboxOverflow => 4 case Supervisor => 5 case Link => 6
  }

  /** `FlowExitReason::from_u64`. */
  function ReasonOf(code: u64): Option<Reason> {
    if code == 0 then Some(Normal)
    else if code == 1 then Some(Shutdown)
    else if code == 2 then Some(Killed)
    else if code == 3 then Some(Fault)
    else if code == 4 then Some(MailboxOverflow)
    else if code == 5 then Some(Supervisor)
    else if code == 6 then Some(Link)
    else None
  }

  /** The two tables of exit reasons are inverse to each other. */
  lemma ReasonCodesInvert(r: Reason, code: u64)
    ensures ReasonOf(ReasonCode(r)) == Some(r)
    ensures ReasonOf(code).Some? ==> ReasonCode(ReasonOf(code).value) == code
  {
  }

  datatype Monitor = Monitor(owner: FlowId, target: FlowId)
  datatype Pair = Pair(a: FlowId, b: FlowId)
  datatype Down = Down(ref: nat, owner: FlowId, target: FlowId, reason: Reason)
  datatype PendingExit = PendingExit(flow: Flow, reason: Reason)

  predicate Touches(l: Pair, f: FlowId) {
    l.a == f || l.b == f
  }

  predicate Joins(l: Pair, f: FlowId, g: FlowId) {
    (l.a == f && l.b == g) || (l.a == g && l.b == f)
  }

  ghost predicate Linked(links: map<nat, Pair>, f: FlowId, g: FlowId) {
    exists l :: l in links && Joins(links[l], f, g)
  }

  function LinksWithout(links: map<nat, Pair>, f: FlowId): map<nat, Pair> {
    map l | l in links && !Touches(links[l], f) :: links[l]
  }

  function MonitorsWithout(monitors: map<nat, Monitor>, f: FlowId): map<nat, Monitor> {
    map r | r in monitors && monitors[r].owner != f && monitors[r].target != f :: monitors[r]
  }

  function OwnedRemoved(monitors: map<nat, Monitor>, f: FlowId): map<nat, Monitor> {
    map r | r in monitors && monitors[r].owner != f :: monitors[r]
  }

  function WorkIds(work: seq<PendingExit>): set<FlowId> {
    set i | 0 <= i < |work| :: work[i].flow.id
  }

  ghost predicate WorkDistinct(work: seq<PendingExit>) {
    forall i, j :: 0 <= i < j < |work| ==> work[i].flow.id != work[j].flow.id
  }

  lemma WorkPush(work: seq<PendingExit>, p: PendingExit)
    ensures WorkIds(work + [p]) == WorkIds(work) + {p.flow.id}
    ensures WorkDistinct(work) && p.flow.id !in WorkIds(work) ==> WorkDistinct(work + [p])
  {
    var all := work + [p];
    assert all[|work|] == p;
    assert forall i :: 0 <= i < |work| ==> all[i] == work[i];
  }

  lemma WorkPop(work: seq<PendingExit>)
    requires work != [] && WorkDistinct(work)
    ensures var (rest, last) := (work[..|work| - 1], work[|work| - 1]);
            WorkDistinct(rest) && last.flow.id !in WorkIds(rest) && WorkIds(work) == WorkIds(rest) + {last.flow.id}
  {
    var rest, last := work[..|work| - 1], work[|work| - 1];
    assert work == rest + [last];
    WorkPush(rest, last);
  }

  // ----- values the scheduler writes -----

  function Wrote(flow: Flow, dest: Option<u8>, v: Value): Flow {
    if dest.Some? then flow.(writes := flow.writes + [(dest.value, v)]) else flow
  }

  /** `after` is `before` with one more value in its registers, in `dest`; without a register the value is lost. */
  ghost predicate Gained(before: Flow, dest: Option<u8>, v: Value, after: Flow) {
    && after == before.(writes := after.writes)
    && after.writes == if dest.Some? then before.writes + [(dest.value, v)] else before.writes
  }

  lemma WroteGains(flow: Flow, dest: Option<u8>, v: Value)
    ensures Gained(flow, dest, v, Wrote(flow, dest, v))
  {
  }

  /** A parked flow leaves its slot with a value in its register, and the ask index, and is runnable. */
  function HandOver(c: Core, a: FlowId, flow: Flow): Core
    requires a in c.boxes
  {
    PutReady(AskRemove(HoldParked(c, a), a), flow)
  }

  lemma HandOverOk(c: Core, held: set<FlowId>, a: FlowId, flow: Flow)
    requires CoreOk(c, held) && a in c.place && c.place[a] == Parked && flow.id == a
    ensures a in c.boxes && a !in held && CoreOk(HandOver(c, a, flow), held)
  {
    hide CoreOk, AskRemove;
    OpenBox(c, held, a);
    NotHeld(c, held, a);
    HoldParkedOk(c, held, a);
    AskRemoveOk(HoldParked(c, a), held + {a}, a);
    AskRemoveFrame(HoldParked(c, a), a);
    PutReadyOk(AskRemove(HoldParked(c, a), a), held + {a}, flow);
    assert held + {a} - {a} == held;
  }

  lemma NotHeld(c: Core, held: set<FlowId>, f: FlowId)
    requires CoreOk(c, held)
    ensures f in held <==> f in c.place && c.place[f] == Held
  {
    hide QueueOk, BoxesOk, SendersOk, IndexOk, AskersOk;
  }

  // ----- what finalization leaves alone -----

  ghost predicate TamePlaces(p: map<FlowId, Place>, b: map<FlowId, Mailbox>, q: map<FlowId, Place>,
                             d: map<FlowId, Mailbox>)
  {
    && d.Keys == b.Keys
    && (forall f :: f in q ==> f in p)
    && (forall f :: f in q && q[f].WaitingIn? ==> q[f] == p[f])
    && (forall f :: f in q && (p[f].WaitingIn? || p[f] == Held) ==> q[f] == p[f] || q[f] == Held)
    && (forall f :: f in q && q[f] == Parked ==>
          p[f] == Parked && f in b && f in d && d[f].parked == b[f].parked && d[f].filter == b[f].filter)
  }

  /**
   No park is installed, so both park counters stand still; no sender joins a queue and no parked
   flow misses a hop.
   */
  ghost predicate TameParks(b: map<FlowId, Mailbox>, d: map<FlowId, Mailbox>) {
    && (forall f :: f in b ==> f in d && d[f].epoch == b[f].epoch && d[f].parks == b[f].parks)
    && (forall f :: f in b && f in d && NothingMissed(b[f]) ==> NothingMissed(d[f]))
    && (forall f, w :: f in b && f in d && w in d[f].waiting ==> w in b[f].waiting)
  }

  ghost predicate TameReady(r: map<FlowId, Flow>, s: map<FlowId, Flow>) {
    forall f :: f in r ==> f in s && s[f] == r[f]
  }

  ghost predicate TameAskers(r: map<FlowId, FlowId>, s: map<FlowId, FlowId>) {
    forall a :: a in s ==> a in r && s[a] == r[a]
  }

  ghost predicate TameIds(r: map<FlowId, u64>, s: map<FlowId, u64>) {
    forall a :: a in s ==> a in r && s[a] == r[a]
  }

  /**
   Finalization only takes flows out: who waits or is parked was so before, runnable flows stay
   as they are, running and sleeping flows are not touched, and index entries only go.
   */
  ghost predicate Tame(c: Core, d: Core) {
    && d.running == c.running && d.sleeping == c.sleeping
    && TamePlaces(c.place, c.boxes, d.place, d.boxes)
    && TameParks(c.boxes, d.boxes)
    && TameReady(c.ready, d.ready)
    && TameAskers(c.byAsker, d.byAsker)
    && TameIds(c.requestIds, d.requestIds)
  }

  ghost predicate Covered(p: map<FlowId, Place>, b: map<FlowId, Mailbox>) {
    forall f :: f in p ==> f in b
  }

  lemma CoreCovered(c: Core, held: set<FlowId>)
    requires CoreOk(c, held)
    ensures Covered(c.place, c.boxes)
  {
    hide QueueOk, HeldOk, SendersOk, IndexOk, AskersOk;
  }

  lemma PlacesHold(p: map<FlowId, Place>, b: map<FlowId, Mailbox>, f: FlowId, to: Place, m: Mailbox)
    requires Covered(p, b) && f in p && p[f] == Parked && (to == Held || to == Ready)
    ensures f in b && TamePlaces(p, b, p[f := to], b[f := m])
  {
  }

  lemma PlacesMove(p: map<FlowId, Place>, b: map<FlowId, Mailbox>, f: FlowId)
    requires Covered(p, b) && f in p
    ensures TamePlaces(p, b, p[f := Held], b)
  {
  }

  lemma PlacesBox(p: map<FlowId, Place>, b: map<FlowId, Mailbox>, f: FlowId, m: Mailbox)
    requires Covered(p, b) && f in b && m.parked == b[f].parked && m.filter == b[f].filter
    ensures TamePlaces(p, b, p, b[f := m])
  {
  }

  lemma PlacesStrand(p: map<FlowId, Place>, b: map<FlowId, Mailbox>, stranded: set<FlowId>)
    requires Covered(p, b)
    ensures TamePlaces(p, b, Strand(p, stranded), b)
  {
  }

  lemma PlacesRetire(p: map<FlowId, Place>, b: map<FlowId, Mailbox>, id: FlowId)
    requires Covered(p, b)
    ensures TamePlaces(p, b, p - {id}, b)
  {
  }

  lemma PlacesTrans(p: map<FlowId, Place>, b: map<FlowId, Mailbox>, q: map<FlowId, Place>, d: map<FlowId, Mailbox>,
                    r: map<FlowId, Place>, e: map<FlowId, Mailbox>)
    requires TamePlaces(p, b, q, d) && TamePlaces(q, d, r, e)
    ensures TamePlaces(p, b, r, e)
  {
  }

  lemma TameItself(c: Core, held: set<FlowId>)
    requires CoreOk(c, held)
    ensures Tame(c, c)
  {
    CoreCovered(c, held);
    hide CoreOk;
  }

  lemma TameTrans(c: Core, d: Core, e: Core)
    requires Tame(c, d) && Tame(d, e)
    ensures Tame(c, e)
  {
    PlacesTrans(c.place, c.boxes, d.place, d.boxes, e.place, e.boxes);
    hide TamePlaces;
  }

  lemma TameAskRemove(c: Core, held: set<FlowId>, a: FlowId)
    requires CoreOk(c, held)
    ensures Tame(c, AskRemove(c, a))
  {
    hide CoreOk, AskRemove, TamePlaces;
    AskRemoveFrame(c, a);
    TameItself(c, held);
    AskRemoveSubset(c, held, a);
  }

  lemma AskRemoveSubset(c: Core, held: set<FlowId>, a: FlowId)
    requires CoreOk(c, held)
    ensures forall x :: x in AskRemove(c, a).byAsker <==> x in c.byAsker && x != a
    ensures forall x :: x in AskRemove(c, a).byAsker ==> AskRemove(c, a).byAsker[x] == c.byAsker[x]
    ensures TameIds(c.requestIds, AskRemove(c, a).requestIds)
  {
    IdsRemove(c, a);
    hide QueueOk, HeldOk, BoxesOk, SendersOk, IndexOk, AskersOk, AskRemove;
    IndexRemove(c, a);
  }

  lemma IdsRemove(c: Core, a: FlowId)
    ensures AskRemove(c, a).requestIds == c.requestIds - {a}
  {
    hide WaitersWithout;
  }

  lemma TameHoldParked(c: Core, held: set<FlowId>, f: FlowId)
    requires CoreOk(c, held) && f in c.place && c.place[f] == Parked
    ensures f in c.boxes && Tame(c, HoldParked(c, f))
  {
    hide CoreOk, TamePlaces;
    CoreCovered(c, held);
    PlacesHold(c.place, c.boxes, f, Held, Vacated(c.boxes[f]));
  }

  lemma TakeSenderKeeps(m: Mailbox, s: FlowId)
    ensures forall w :: w in TakeSender(m, s).0.waiting ==> w in m.waiting
  {
  }

  lemma TameHoldWaiting(c: Core, held: set<FlowId>, s: FlowId, t: FlowId)
    requires CoreOk(c, held) && s in c.waitingAt && c.waitingAt[s] == t
    ensures t in c.boxes && Tame(c, HoldWaiting(c, s, t))
  {
    hide CoreOk, TamePlaces, TakeSender, WaitIds;
    SenderPlace(c, held, s);
    OpenBox(c, held, t);
    WaitIdsTake(c.boxes[t], s);
    TakeSenderKeeps(c.boxes[t], s);
    CoreCovered(c, held);
    var m := TakeSender(c.boxes[t], s).0;
    PlacesBox(c.place, c.boxes, t, m);
    HoldsCover(c.place, c.boxes, t, m);
    PlacesMove(c.place, c.boxes[t := m], s);
    PlacesTrans(c.place, c.boxes, c.place, c.boxes[t := m], c.place[s := Held], c.boxes[t := m]);
  }

  lemma HoldsCover(p: map<FlowId, Place>, b: map<FlowId, Mailbox>, t: FlowId, m: Mailbox)
    requires Covered(p, b)
    ensures Covered(p, b[t := m])
  {
  }

  lemma TameHandOver(c: Core, held: set<FlowId>, a: FlowId, flow: Flow)
    requires CoreOk(c, held) && a in c.place && c.place[a] == Parked && flow.id == a
    ensures a in c.boxes && Tame(c, HandOver(c, a, flow))
  {
    hide CoreOk, AskRemove, TamePlaces, TameAskers, TameIds;
    NotReady(c, held, a);
    CoreCovered(c, held);
    HoldParkedOk(c, held, a);
    TameAskRemove(HoldParked(c, a), held + {a}, a);
    AskRemoveFrame(HoldParked(c, a), a);
    PlacesHold(c.place, c.boxes, a, Ready, Vacated(c.boxes[a]));
    assert c.place[a := Held][a := Ready] == c.place[a := Ready];
  }

  lemma NotReady(c: Core, held: set<FlowId>, a: FlowId)
    requires CoreOk(c, held)
    ensures a in c.ready <==> a in c.place && c.place[a] == Ready
  {
    hide HeldOk, BoxesOk, SendersOk, IndexOk, AskersOk;
  }

  lemma TameWithBox(c: Core, held: set<FlowId>, f: FlowId, m: Mailbox)
    requires CoreOk(c, held) && f in c.boxes && m.(queue := c.boxes[f].queue) == c.boxes[f]
    requires NothingMissed(c.boxes[f]) ==> NothingMissed(m)
    ensures Tame(c, WithBox(c, f, m))
  {
    hide CoreOk, TamePlaces, NothingMissed;
    CoreCovered(c, held);
    PlacesBox(c.place, c.boxes, f, m);
  }

  lemma TameCloseBox(c: Core, held: set<FlowId>, id: FlowId)
    requires CoreOk(c, held) && id in held
    ensures id in c.boxes && Tame(c, CloseBox(c, id))
  {
    hide CoreOk, TamePlaces, WaitIds, Strand;
    InHand(c, held, id);
    CoreCovered(c, held);
    var m := Close(c.boxes[id]).0;
    PlacesBox(c.place, c.boxes, id, m);
    HoldsCover(c.place, c.boxes, id, m);
    var stranded := WaitIds(c.boxes[id].waiting);
    PlacesStrand(c.place, c.boxes[id := m], stranded);
    PlacesTrans(c.place, c.boxes, c.place, c.boxes[id := m], Strand(c.place, stranded), c.boxes[id := m]);
  }

  lemma TameRetire(c: Core, held: set<FlowId>, id: FlowId)
    requires CoreOk(c, held) && id in held
    ensures Tame(c, Retire(c, id))
  {
    hide CoreOk, TamePlaces;
    CoreCovered(c, held);
    PlacesRetire(c.place, c.boxes, id);
  }

  // ----- hops and orphaned asks -----

  /** A DOWN hop about a flow that is gone never answers an `Ask`: asks are put to live flows only. */
  lemma DownAnswersNoAsk(c: Core, held: set<FlowId>, owner: FlowId, hop: Value, gone: FlowId)
    requires CoreOk(c, held) && owner in c.place && c.place[owner] == Parked && owner in c.boxes
    requires hop.Hop? && hop.msg.sender == gone && gone !in c.place && Matches(c.boxes[owner].filter, hop)
    ensures owner !in c.byAsker && owner !in c.requestIds
  {
    hide QueueOk, HeldOk, BoxesOk, SendersOk;
  }

  /** Removing a flow that is not in the index changes nothing. */
  lemma AskRemoveNothing(c: Core, a: FlowId)
    requires a !in c.byAsker && a !in c.requestIds
    ensures AskRemove(c, a) == c
  {
    assert c.requestIds - {a} == c.requestIds && c.byAsker - {a} == c.byAsker;
  }

  lemma IndexAgrees(c: Core, held: set<FlowId>, t: FlowId)
    requires CoreOk(c, held)
    ensures t in c.byTarget ==> forall a :: a in c.byTarget[t] <==> a in c.byAsker && c.byAsker[a] == t
    ensures t !in c.byTarget ==> forall a :: a in c.byAsker ==> c.byAsker[a] != t
    ensures t in c.byTarget ==> c.byTarget[t] != {}
    ensures forall a :: a in c.byAsker ==>
              a in c.place && c.byAsker[a] in c.place && (c.place[a] == Parked || c.place[a] == Held)
  {
    hide QueueOk, HeldOk, BoxesOk, SendersOk, Asks, AskFilter;
  }

  /** One orphaned asker after another, with the hop that tells of the exit. */
  function WakeOne(c: Core, a: FlowId, hop: Value): Core
    requires a in c.boxes
  {
    if a in c.place && c.place[a] == Parked && c.boxes[a].parked.Some? then
      HandOver(c, a, Wrote(c.boxes[a].parked.value, c.boxes[a].parked.value.lastDest, hop))
    else AskRemove(c, a)
  }

  lemma WakeOneFrame(c: Core, a: FlowId, hop: Value)
    requires a in c.boxes && (c.boxes[a].parked.Some? ==> c.boxes[a].parked.value.id == a)
    requires a in c.place && (c.boxes[a].parked.Some? <==> c.place[a] == Parked)
    ensures var d := WakeOne(c, a, hop);
            && d.place == (if c.place[a] == Parked then c.place[a := Ready] else c.place)
            && d.boxes == (if c.place[a] == Parked then c.boxes[a := Vacated(c.boxes[a])] else c.boxes)
            && d.ready == (if c.place[a] == Parked
                           then c.ready[a := Wrote(c.boxes[a].parked.value, c.boxes[a].parked.value.lastDest, hop)]
                           else c.ready)
            && d.waitingAt == c.waitingAt && d.running == c.running && d.sleeping == c.sleeping
  {
    hide AskRemove;
    AskRemoveFrame(c, a);
    AskRemoveFrame(HoldParked(c, a), a);
    if c.place[a] == Parked {
      assert c.place[a := Held][a := Ready] == c.place[a := Ready];
    }
  }

  lemma WakeOneIndex(c: Core, held: set<FlowId>, a: FlowId, hop: Value)
    requires CoreOk(c, held) && a in c.byAsker
    ensures a in c.boxes && CoreOk(WakeOne(c, a, hop), held) && Tame(c, WakeOne(c, a, hop))
    ensures forall x :: x in WakeOne(c, a, hop).byAsker <==> x in c.byAsker && x != a
  {
    hide CoreOk, AskRemove, Tame;
    IndexAgrees(c, held, a);
    OpenBox(c, held, a);
    var flow := c.boxes[a].parked;
    if c.place[a] == Parked {
      HandOverOk(c, held, a, Wrote(flow.value, flow.value.lastDest, hop));
      TameHandOver(c, held, a, Wrote(flow.value, flow.value.lastDest, hop));
      HoldParkedOk(c, held, a);
      AskRemoveSubset(HoldParked(c, a), held + {a}, a);
    } else {
      AskRemoveOk(c, held, a);
      TameAskRemove(c, held, a);
      AskRemoveSubset(c, held, a);
    }
  }

  /** One orphan less in the index; nobody else is touched. */
  ghost predicate WokenOne(c: Core, d: Core, a: FlowId, hop: Value) {
    && (forall x :: x in d.byAsker <==> x in c.byAsker && x != a)
    && (forall x :: x in c.boxes ==> x in d.boxes && d.boxes[x].closed == c.boxes[x].closed)
    && (forall x :: x in c.boxes && x != a ==> x in d.boxes && d.boxes[x] == c.boxes[x])
    && (forall x :: x in c.ready ==> x in d.ready && d.ready[x] == c.ready[x])
    && a in c.place && a in c.boxes && (c.place[a] == Parked ==> c.boxes[a].parked.Some?)
    && d.place == (if c.place[a] == Parked then c.place[a := Ready] else c.place)
    && (c.place[a] == Parked ==>
          a in d.ready && Gained(c.boxes[a].parked.value, c.boxes[a].parked.value.lastDest, hop, d.ready[a]))
  }

  lemma WakeOneOk(c: Core, held: set<FlowId>, a: FlowId, hop: Value)
    requires CoreOk(c, held) && a in c.byAsker
    ensures a in c.boxes && CoreOk(WakeOne(c, a, hop), held) && Tame(c, WakeOne(c, a, hop))
    ensures WokenOne(c, WakeOne(c, a, hop), a, hop)
  {
    hide CoreOk, AskRemove, Tame, WakeOne, Wrote, Gained;
    IndexAgrees(c, held, a);
    OpenBox(c, held, a);
    WakeOneIndex(c, held, a, hop);
    WakeOneFrame(c, a, hop);
    if c.boxes[a].parked.Some? {
      WroteGains(c.boxes[a].parked.value, c.boxes[a].parked.value.lastDest, hop);
    }
    TameKeepsReady(c, WakeOne(c, a, hop));
  }

  /** The events of one exit: every monitor on the flow, by growing reference. */
  ghost predicate DownsFor(events: seq<Down>, monitors: map<nat, Monitor>, target: FlowId, reason: Reason) {
    && (forall k :: 0 <= k < |events| ==>
          events[k].ref in monitors && monitors[events[k].ref].target == target
          && events[k] == Down(events[k].ref, monitors[events[k].ref].owner, target, reason))
    && (forall j, k :: 0 <= j < k < |events| ==> events[j].ref < events[k].ref)
    && (forall r :: r in monitors && monitors[r].target == target ==>
          exists k :: 0 <= k < |events| && events[k].ref == r)
  }

  /** The DOWN hop is in the owner's register or at the end of its queue, whatever the bounds. */
  ghost predicate DownArrived(c: Core, d: Core, owner: FlowId, hop: Value)
    requires owner in c.boxes && owner in d.boxes
  {
    || d.boxes[owner].queue.items == c.boxes[owner].queue.items + [hop]
    || (c.boxes[owner].parked.Some? && owner in d.ready
        && Gained(c.boxes[owner].parked.value, c.boxes[owner].parked.value.lastDest, hop, d.ready[owner]))
  }

  lemma {:induction false} LeastExists(s: set<nat>) returns (least: nat)
    requires s != {}
    ensures least in s && forall x :: x in s ==> least <= x
    decreases |s|
  {
    var x :| x in s;
    if s == {x} {
      least := x;
    } else {
      var rest := s - {x};
      assert s == rest + {x};
      var l := LeastExists(rest);
      least := if l < x then l else x;
    }
  }

  /** Of the flows that were parked, exactly the ones in `woken` are runnable now. */
  ghost predicate WokenPlaces(p: map<FlowId, Place>, q: map<FlowId, Place>, woken: set<FlowId>) {
    forall f :: f in p && f in q ==> q[f] == if f in woken && p[f] == Parked then Ready else p[f]
  }

  lemma WokenPlacesOne(p: map<FlowId, Place>, q: map<FlowId, Place>, waiters: set<FlowId>, left: set<FlowId>,
                       a: FlowId, q': map<FlowId, Place>)
    requires WokenPlaces(p, q, waiters - left) && a in left && a in waiters && a in p && a in q && q[a] == p[a]
    requires q' == if q[a] == Parked then q[a := Ready] else q
    ensures WokenPlaces(p, q', waiters - (left - {a}))
  {
  }

  /** Half way through the orphans of an exit: `left` of the `waiters` are still to be resumed. */
  ghost predicate Waking(c0: Core, c: Core, waiters: set<FlowId>, left: set<FlowId>, hop: Value) {
    && left <= waiters
    && (forall a :: a in c.byAsker <==> a in c0.byAsker && (a in waiters ==> a in left))
    && (forall f :: f in c.place <==> f in c0.place)
    && WokenPlaces(c0.place, c.place, waiters - left)
    && (forall f :: f in c0.boxes ==> f in c.boxes && c.boxes[f].closed == c0.boxes[f].closed)
    && LeftAlone(c0, c, left)
    && TheyGained(c0, c, waiters - left, hop)
  }

  /** Nothing has happened to those still to be resumed. */
  ghost predicate LeftAlone(c0: Core, c: Core, left: set<FlowId>) {
    forall a :: a in left ==>
        a in c0.place && a in c.place && c.place[a] == c0.place[a]
        && a in c0.boxes && a in c.boxes && c.boxes[a] == c0.boxes[a]
  }

  /** Those that were parked are runnable with the hop in the register they wait for. */
  ghost predicate TheyGained(c0: Core, c: Core, woken: set<FlowId>, hop: Value) {
    forall a :: a in woken && a in c0.place && c0.place[a] == Parked ==>
        a in c0.boxes && c0.boxes[a].parked.Some? && a in c.ready
        && Gained(c0.boxes[a].parked.value, c0.boxes[a].parked.value.lastDest, hop, c.ready[a])
  }

  lemma LeftAloneOne(c0: Core, c: Core, d: Core, left: set<FlowId>, hop: Value, a: FlowId)
    requires LeftAlone(c0, c, left) && WokenOne(c, d, a, hop)
    ensures LeftAlone(c0, d, left - {a})
  {
    hide Gained;
  }

  lemma TheyGainedOne(c0: Core, c: Core, d: Core, waiters: set<FlowId>, left: set<FlowId>, hop: Value, a: FlowId)
    requires LeftAlone(c0, c, left) && TheyGained(c0, c, waiters - left, hop) && WokenOne(c, d, a, hop) && a in left
    ensures TheyGained(c0, d, waiters - (left - {a}), hop)
  {
    hide Gained;
  }

  lemma WakingStarts(c: Core, held: set<FlowId>, waiters: set<FlowId>, hop: Value)
    requires CoreOk(c, held) && forall a :: a in waiters ==> a in c.byAsker
    ensures Waking(c, c, waiters, waiters, hop)
  {
    hide CoreOk, Gained;
    CoreCovered(c, held);
    AskMaps(c, held);
  }

  lemma AskMaps(c: Core, held: set<FlowId>)
    requires CoreOk(c, held)
    ensures forall a :: a in c.byAsker <==> a in c.requestIds
    ensures forall a :: a in c.byAsker ==> a in c.place
  {
    hide QueueOk, HeldOk, BoxesOk, SendersOk, Asks;
  }

  lemma AloneAt(c0: Core, c: Core, left: set<FlowId>, a: FlowId)
    requires LeftAlone(c0, c, left) && a in left
    ensures a in c0.place && a in c.place && c.place[a] == c0.place[a]
  {
  }

  lemma WokenOneParts(c: Core, d: Core, a: FlowId, hop: Value)
    requires WokenOne(c, d, a, hop)
    ensures forall x :: x in d.byAsker <==> x in c.byAsker && x != a
    ensures forall x :: x in c.boxes ==> x in d.boxes && d.boxes[x].closed == c.boxes[x].closed
    ensures a in c.place && d.place == (if c.place[a] == Parked then c.place[a := Ready] else c.place)
    ensures forall x :: x in d.place <==> x in c.place
  {
    hide Gained;
  }

  lemma WakingStep(c0: Core, c: Core, d: Core, waiters: set<FlowId>, left: set<FlowId>, hop: Value, a: FlowId)
    requires Waking(c0, c, waiters, left, hop) && a in left && WokenOne(c, d, a, hop)
    ensures Waking(c0, d, waiters, left - {a}, hop)
  {
    hide Gained, WokenPlaces, LeftAlone, TheyGained, WokenOne;
    AloneAt(c0, c, left, a);
    WokenOneParts(c, d, a, hop);
    WokenPlacesOne(c0.place, c.place, waiters, left, a, d.place);
    LeftAloneOne(c0, c, d, left, hop, a);
    TheyGainedOne(c0, c, d, waiters, left, hop, a);
  }

  lemma WakingGoesOn(c0: Core, c: Core, held: set<FlowId>, waiters: set<FlowId>, left: set<FlowId>, hop: Value,
                     a: FlowId)
    requires CoreOk(c, held) && Tame(c0, c) && Waking(c0, c, waiters, left, hop) && a in left && a in c0.byAsker
    ensures a in c.boxes && CoreOk(WakeOne(c, a, hop), held) && Tame(c0, WakeOne(c, a, hop))
    ensures Waking(c0, WakeOne(c, a, hop), waiters, left - {a}, hop)
  {
    WakingAsker(c0, c, waiters, left, hop, a);
    hide CoreOk, AskRemove, WakeOne, Tame, Waking, WokenOne;
    WakeOneOk(c, held, a, hop);
    TameTrans(c0, c, WakeOne(c, a, hop));
    WakingStep(c0, c, WakeOne(c, a, hop), waiters, left, hop, a);
  }

  lemma WakingAsker(c0: Core, c: Core, waiters: set<FlowId>, left: set<FlowId>, hop: Value, a: FlowId)
    requires Waking(c0, c, waiters, left, hop) && a in left && a in c0.byAsker
    ensures a in c.byAsker
  {
  }

  lemma TameKeepsReady(c: Core, d: Core)
    requires Tame(c, d)
    ensures forall f :: f in c.ready ==> f in d.ready && d.ready[f] == c.ready[f]
    ensures d.running == c.running && d.sleeping == c.sleeping
  {
  }

  lemma TameValues(c: Core, d: Core)
    requires Tame(c, d)
    ensures forall a :: a in d.byAsker ==> a in c.byAsker && d.byAsker[a] == c.byAsker[a]
    ensures forall a :: a in d.requestIds ==> a in c.requestIds && d.requestIds[a] == c.requestIds[a]
  {
    hide TamePlaces, TameReady;
  }

  /** With all waiters gone the target's entry is gone from the index as well. */
  lemma IndexEmptied(c0: Core, c: Core, held: set<FlowId>, id: FlowId, waiters: set<FlowId>)
    requires CoreOk(c0, held) && CoreOk(c, held) && Tame(c0, c)
    requires forall a :: a in waiters <==> a in c0.byAsker && c0.byAsker[a] == id
    requires forall a :: a in c.byAsker <==> a in c0.byAsker && a !in waiters
    requires id in c0.byTarget
    ensures c.byAsker == c0.byAsker - waiters && c.requestIds == c0.requestIds - waiters
            && c.byTarget == c0.byTarget - {id}
  {
    hide CoreOk, Tame;
    AskMaps(c0, held);
    AskMaps(c, held);
    TameValues(c0, c);
    TargetsEmptied(c0, c, held, id, waiters);
  }

  lemma TargetsEmptied(c0: Core, c: Core, held: set<FlowId>, id: FlowId, waiters: set<FlowId>)
    requires CoreOk(c0, held) && CoreOk(c, held)
    requires forall a :: a in waiters <==> a in c0.byAsker && c0.byAsker[a] == id
    requires forall a :: a in c.byAsker <==> a in c0.byAsker && a !in waiters
    requires forall a :: a in c.byAsker ==> c.byAsker[a] == c0.byAsker[a]
    ensures c.byTarget == c0.byTarget - {id}
  {
    hide CoreOk;
    forall t ensures t in c.byTarget <==> t in c0.byTarget && t != id
             ensures t in c.byTarget && t in c0.byTarget ==> c.byTarget[t] == c0.byTarget[t] {
      IndexAgrees(c0, held, t);
      IndexAgrees(c, held, t);
    }
  }

  // ----- DOWN hops on their way -----

  function DownFor(e: Down): Value
    requires e.ref <= 0xFFFF_FFFF_FFFF_FFFF && e.target <= 0xFFFF_FFFF_FFFF_FFFF
  {
    DownHop(e.ref, e.target, ReasonCode(e.reason))
  }

  /**
   Both system hops can be told from their fields: who sent it and about which exit, and a DOWN hop
   also by the reference of its monitor, so that a receive for that reference gets no other.
   */
  lemma SystemHopsTell(e: Down, target: u64, reason: Reason, ref: u64)
    requires e.ref <= 0xFFFF_FFFF_FFFF_FFFF && e.target <= 0xFFFF_FFFF_FFFF_FFFF
    ensures Matches(TaggedCorrelation(TAG_SYS_DOWN, ref), DownFor(e)) <==> e.ref == ref
    ensures Matches(Tag(TAG_SYS_EXIT), ExitHop(target, ReasonCode(reason))) && !Matches(Tag(TAG_SYS_EXIT), DownFor(e))
    ensures DownFor(e).msg.sender == e.target && ExitHop(target, ReasonCode(reason)).msg.sender == target
    ensures DownFor(e).msg.replyCap == 0 && ExitHop(target, ReasonCode(reason)).msg.replyCap == 0
    ensures var told := DownFor(e).msg.payload; told.Int? && 0 <= told.i && ReasonOf(told.i) == Some(e.reason)
    ensures var told := ExitHop(target, ReasonCode(reason)).msg.payload;
            told.Int? && 0 <= told.i && ReasonOf(told.i) == Some(reason)
  {
    Wrap64Fits(ReasonCode(e.reason));
    Wrap64Fits(ReasonCode(reason));
  }

  /** What `deliver_down` does with the owner's mailbox. */
  function DeliverTo(c: Core, owner: FlowId, hop: Value): Core
    requires owner in c.boxes
  {
    var (m, d) := PushSystem(c.boxes[owner], hop);
    match d
    case Handoff(flow) => HandOver(c, owner, Wrote(flow, flow.lastDest, hop))
    case _ => WithBox(c, owner, m)
  }

  lemma QueuedArrives(q: Queue, hop: Value)
    ensures PushBack(q, hop).items == q.items + [hop]
  {
  }

  /** The core after a system hop that touched no ask. */
  ghost predicate DownDone(c: Core, d: Core, held: set<FlowId>, owner: FlowId, hop: Value) {
    && CoreOk(d, held) && Tame(c, d)
    && d.byAsker == c.byAsker && d.byTarget == c.byTarget
    && (forall f :: f in d.place <==> f in c.place)
    && owner in c.boxes && owner in d.boxes && DownArrived(c, d, owner, hop)
  }

  lemma DownHanded(c: Core, held: set<FlowId>, owner: FlowId, hop: Value, gone: FlowId)
    requires CoreOk(c, held) && owner in c.place && gone !in c.place && hop.Hop? && hop.msg.sender == gone
    requires owner in c.boxes && c.boxes[owner].parked.Some? && Matches(c.boxes[owner].filter, hop)
    ensures var flow := c.boxes[owner].parked.value;
            DownDone(c, HandOver(c, owner, Wrote(flow, flow.lastDest, hop)), held, owner, hop)
  {
    hide CoreOk, AskRemove, Tame, Matches;
    OpenBox(c, held, owner);
    var m := c.boxes[owner];
    var flow := Wrote(m.parked.value, m.parked.value.lastDest, hop);
    WroteGains(m.parked.value, m.parked.value.lastDest, hop);
    DownAnswersNoAsk(c, held, owner, hop, gone);
    HandOverOk(c, held, owner, flow);
    TameHandOver(c, held, owner, flow);
    AskRemoveNothing(HoldParked(c, owner), owner);
  }

  lemma DownQueued(c: Core, held: set<FlowId>, owner: FlowId, hop: Value)
    requires CoreOk(c, held) && owner in c.boxes
             && !(c.boxes[owner].parked.Some? && Matches(c.boxes[owner].filter, hop))
    ensures DownDone(c, WithBox(c, owner, c.boxes[owner].(queue := PushBack(c.boxes[owner].queue, hop))), held,
                     owner, hop)
  {
    hide CoreOk, Tame, PushBack, Matches, NothingMissed;
    var m := c.boxes[owner].(queue := PushBack(c.boxes[owner].queue, hop));
    QueueingMissesNothing(c.boxes[owner], hop);
    WithBoxOk(c, held, owner, m);
    TameWithBox(c, held, owner, m);
    QueuedArrives(c.boxes[owner].queue, hop);
  }

  /** A system hop that answers no ask: it arrives, and the ask index is not touched. */
  lemma DeliverToOk(c: Core, held: set<FlowId>, owner: FlowId, hop: Value, gone: FlowId)
    requires CoreOk(c, held) && owner in c.place && gone !in c.place && hop.Hop? && hop.msg.sender == gone
    ensures owner in c.boxes && DownDone(c, DeliverTo(c, owner, hop), held, owner, hop)
  {
    hide CoreOk, HandOver, WithBox, Matches, PushBack, DownDone;
    OpenBox(c, held, owner);
    if c.boxes[owner].parked.Some? && Matches(c.boxes[owner].filter, hop) {
      DownHanded(c, held, owner, hop, gone);
    } else {
      DownQueued(c, held, owner, hop);
    }
  }

  lemma HandOverPlace(c: Core, a: FlowId, flow: Flow)
    requires a in c.boxes && flow.id == a
    ensures HandOver(c, a, flow).place == c.place[a := Ready]
  {
    hide AskRemove, Vacated;
    AskRemoveFrame(HoldParked(c, a), a);
    assert c.place[a := Held][a := Ready] == c.place[a := Ready];
  }

  lemma DeliverToIs(c: Core, owner: FlowId, hop: Value)
    requires owner in c.boxes
    ensures var m := c.boxes[owner];
            DeliverTo(c, owner, hop)
            == if m.parked.Some? && Matches(m.filter, hop)
               then HandOver(c, owner, Wrote(m.parked.value, m.parked.value.lastDest, hop))
               else WithBox(c, owner, m.(queue := PushBack(m.queue, hop)))
  {
    hide HandOver, WithBox, PushBack, Matches, Wrote;
  }

  /** Only an owner parked under a filter that the hop matches changes its place. */
  lemma DeliverPlaces(c: Core, held: set<FlowId>, owner: FlowId, hop: Value)
    requires CoreOk(c, held) && owner in c.boxes && owner in c.place
    ensures DeliverTo(c, owner, hop).place
            == if c.place[owner] == Parked && Matches(c.boxes[owner].filter, hop) then c.place[owner := Ready]
               else c.place
  {
    hide CoreOk, HandOver, DeliverTo, Matches, PushBack;
    DeliverToIs(c, owner, hop);
    OpenBox(c, held, owner);
    var parked := c.boxes[owner].parked;
    if parked.Some? {
      HandOverPlace(c, owner, Wrote(parked.value, parked.value.lastDest, hop));
    }
  }

  /** Monitors that remain when those on `target` are gone. */
  function TargetRemoved(monitors: map<nat, Monitor>, f: FlowId): map<nat, Monitor> {
    map r | r in monitors && monitors[r].target != f :: monitors[r]
  }

  lemma MonitorsTwice(monitors: map<nat, Monitor>, f: FlowId)
    ensures TargetRemoved(OwnedRemoved(monitors, f), f) == MonitorsWithout(monitors, f)
  {
  }

  // ----- kills -----

  /** What pulling a flow out for a kill does: from its slot, from a waiting queue, or nothing. */
  function Extract(c: Core, f: FlowId): Core {
    if f in c.boxes && c.boxes[f].parked.Some? then HoldParked(c, f)
    else if f in c.waitingAt && c.waitingAt[f] in c.boxes then HoldWaiting(c, f, c.waitingAt[f])
    else c
  }

  predicate Extractable(c: Core, f: FlowId) {
    f in c.place && (c.place[f] == Parked || c.place[f].WaitingIn?)
  }

  lemma ExtractOk(c: Core, held: set<FlowId>, f: FlowId)
    requires CoreOk(c, held) && f in c.place
    ensures Tame(c, Extract(c, f))
    ensures Extractable(c, f) ==> f !in held && CoreOk(Extract(c, f), held + {f})
    ensures !Extractable(c, f) ==> Extract(c, f) == c
    ensures forall x :: x in Extract(c, f).place <==> x in c.place
    ensures Extract(c, f).byAsker == c.byAsker
    ensures f in c.boxes && (c.boxes[f].parked.Some? <==> c.place[f] == Parked)
    ensures c.boxes[f].parked.Some? ==> c.boxes[f].parked.value.id == f
    ensures f in c.waitingAt ==> c.place[f].WaitingIn? && c.waitingAt[f] in c.boxes && c.waitingAt[f] in c.place
    ensures f in c.waitingAt ==>
              TakeSender(c.boxes[c.waitingAt[f]], f).1.Some? && TakeSender(c.boxes[c.waitingAt[f]], f).1.value.id == f
    ensures c.place[f].WaitingIn? ==> f in c.waitingAt
  {
    hide CoreOk, Tame, TakeSender;
    OpenBox(c, held, f);
    NotHeld(c, held, f);
    WaitingIndexed(c, held, f);
    TameItself(c, held);
    if c.place[f] == Parked {
      HoldParkedOk(c, held, f);
      TameHoldParked(c, held, f);
    } else if f in c.waitingAt {
      SenderPlace(c, held, f);
      HoldWaitingOk(c, held, f, c.waitingAt[f]);
      TameHoldWaiting(c, held, f, c.waitingAt[f]);
    }
  }

  lemma ExtractPlaces(c: Core, held: set<FlowId>, f: FlowId)
    requires CoreOk(c, held) && f in c.place
    ensures Extract(c, f).place == if Extractable(c, f) then c.place[f := Held] else c.place
  {
    hide CoreOk, TakeSender, Tame, Vacated;
    ExtractOk(c, held, f);
  }

  lemma WaitingIndexed(c: Core, held: set<FlowId>, f: FlowId)
    requires CoreOk(c, held) && f in c.place
    ensures c.place[f].WaitingIn? <==> f in c.waitingAt
  {
    hide QueueOk, HeldOk, BoxesOk, IndexOk, AskersOk, WaitIds, NoTwice;
  }

  // ----- one exit, seen from outside -----

  /** The DOWN hop that monitor `r` yields on the exit of `g` matches the filter. */
  ghost predicate FitsDown(filter: WaitFilter, r: nat, g: FlowId, reason: Reason) {
    && r <= 0xFFFF_FFFF_FFFF_FFFF && g <= 0xFFFF_FFFF_FFFF_FFFF
    && Matches(filter, DownHop(r, g, ReasonCode(reason)))
  }

  /** `f` has a monitor on `g` whose hop matches the filter it is parked under. */
  ghost predicate DownFits(boxes: map<FlowId, Mailbox>, monitors: map<nat, Monitor>, f: FlowId, g: FlowId,
                           reason: Reason)
  {
    f in boxes && exists r :: r in monitors && monitors[r] == Monitor(f, g) && FitsDown(boxes[f].filter, r, g, reason)
  }

  /** Where a flow is after the exit of `id` that has roused or hit it, or not. */
  function Settled(at: Place, id: FlowId, roused: bool, hit: bool): Place {
    match at
    case Parked => if roused then Ready else if hit then Held else Parked
    case WaitingIn(target) => if target == id || hit then Held else at
    case _ => at
  }

  function Peers(links: map<nat, Pair>, id: FlowId): set<FlowId> {
    set l | l in links && Touches(links[l], id) :: if links[l].a == id then links[l].b else links[l].a
  }

  lemma PeersAreLinked(links: map<nat, Pair>, id: FlowId)
    ensures forall f :: f in Peers(links, id) <==> Linked(links, id, f)
  {
    forall f ensures f in Peers(links, id) <==> Linked(links, id, f) {
      if f in Peers(links, id) {
        var l :| l in links && Touches(links[l], id) && f == if links[l].a == id then links[l].b else links[l].a;
        assert Joins(links[l], id, f);
      }
      if Linked(links, id, f) {
        var l :| l in links && Joins(links[l], id, f);
        assert Touches(links[l], id);
        if links[l].a == id && links[l].b != f {
          assert links[l].a == f;
        }
      }
    }
  }
}
