/**
 The scheduler's tables as one value, what each part of an exit does to them
 (crates/byteflow/src/scheduler/finalize.rs), and what a whole finalization amounts to.
 */
module Exits {
  import opened Wrappers
  import opened Values
  import opened MailboxSpec
  import opened Residence
  import opened Lifecycle
  import Capabilities

  const ID_LIMIT: nat := 0xFFFF_FFFF_FFFF_FFFF

  type Name = seq<u8>

  datatype NameEntry = NameEntry(cap: u128, flow: FlowId)

  /** A receive timeout: `park` is the number of the park that armed it, `epoch` what the code keeps of it. */
  datatype Deadline = Deadline(pid: FlowId, dest: u8, epoch: u64, park: nat)

  datatype Snap = Snap(
    core: Core,
    directory: set<FlowId>,
    quotas: set<FlowId>,
    signals: map<FlowId, Reason>,
    monitors: map<nat, Monitor>,
    links: map<nat, Pair>,
    byName: map<Name, NameEntry>,
    byFlow: map<FlowId, seq<Name>>,
    caps: Capabilities.CapState,
    deadlines: set<Deadline>,
    nextFlow: nat,
    nextMonitor: nat,
    nextLink: nat,
    downs: seq<Down>)

  // ----- the invariant of the tables -----

  /** The directory lists exactly the unfinished flows. */
  ghost predicate Listed(directory: set<FlowId>, place: map<FlowId, Place>) {
    forall f :: f in directory <==> f in place
  }

  ghost predicate SignalsOk(signals: map<FlowId, Reason>, directory: set<FlowId>) {
    forall f :: f in signals ==> f in directory
  }

  /** A monitor entry has a live owner; references are handed out once. */
  ghost predicate MonitorsOk(monitors: map<nat, Monitor>, next: nat, directory: set<FlowId>) {
    && next <= ID_LIMIT
    && forall r :: r in monitors ==>
         r < next && monitors[r].owner in directory && monitors[r].owner != monitors[r].target
  }

  /** No reference fires twice, and none that fired is still in the table. */
  ghost predicate DownsOk(downs: seq<Down>, monitors: map<nat, Monitor>, next: nat) {
    && (forall i :: 0 <= i < |downs| ==> downs[i].ref < next && downs[i].ref !in monitors)
    && (forall i, j :: 0 <= i < j < |downs| ==> downs[i].ref != downs[j].ref)
  }

  /** No flow is linked to itself and no two flows are linked twice. */
  ghost predicate LinksOk(links: map<nat, Pair>, next: nat) {
    && (forall l :: l in links ==> l < next && links[l].a != links[l].b)
    && (forall l, k :: l in links && k in links && l != k ==> !Joins(links[l], links[k].a, links[k].b))
  }

  /** The two directions of the name table agree, and names belong to live flows. */
  ghost predicate NamesOk(byName: map<Name, NameEntry>, byFlow: map<FlowId, seq<Name>>, directory: set<FlowId>) {
    && (forall n :: n in byName ==> byName[n].flow in byFlow && n in byFlow[byName[n].flow])
    && (forall f, n :: f in byFlow && n in byFlow[f] ==> n in byName && byName[n].flow == f)
    && (forall f :: f in byFlow ==> f in directory && byFlow[f] != [])
  }

  ghost predicate IdsOk(boxes: map<FlowId, Mailbox>, next: nat) {
    && 0 < next <= ID_LIMIT
    && forall f :: f in boxes ==> 0 < f < next
  }

  /** An asker that still has to get its request through waits for the answer in the register it named. */
  predicate Consistent(flow: Flow) {
    flow.pendingSend.Some? && flow.pendingSend.value.AskReply? ==> flow.lastDest == Some(flow.pendingSend.value.dest)
  }

  /**
   Epochs count parks, a parked flow has named the register it waits for, a deadline whose park is
   still current belongs to that register, and nobody sleeps on a hop it waits for.
   */
  ghost predicate DeadlinesOk(deadlines: set<Deadline>, boxes: map<FlowId, Mailbox>) {
    && (forall f :: f in boxes ==> boxes[f].epoch == boxes[f].parks % EPOCHS && NothingMissed(boxes[f]))
    && (forall f :: f in boxes && boxes[f].parked.Some? ==> boxes[f].parked.value.lastDest.Some?)
    && (forall d :: d in deadlines ==>
          d.pid in boxes && 1 <= d.park <= boxes[d.pid].parks && d.epoch == d.park % EPOCHS)
    && (forall d :: d in deadlines && boxes[d.pid].parks == d.park && boxes[d.pid].parked.Some? ==>
          boxes[d.pid].parked.value.lastDest == Some(d.dest))
    && (forall f, w :: f in boxes && w in boxes[f].waiting ==> Consistent(w.flow))
  }

  ghost predicate TablesOk(s: Snap) {
    && Listed(s.directory, s.core.place) && s.quotas == s.directory
    && SignalsOk(s.signals, s.directory)
    && MonitorsOk(s.monitors, s.nextMonitor, s.directory)
    && DownsOk(s.downs, s.monitors, s.nextMonitor)
    && LinksOk(s.links, s.nextLink)
    && NamesOk(s.byName, s.byFlow, s.directory)
    && IdsOk(s.core.boxes, s.nextFlow)
    && DeadlinesOk(s.deadlines, s.core.boxes)
    && Capabilities.Sane(s.caps)
  }

  /** Everything that holds while the flows in `held` are in the hands of a step. */
  ghost predicate SnapOk(s: Snap, held: set<FlowId>) {
    CoreOk(s.core, held) && TablesOk(s)
  }

  // ----- steps that only move flows -----

  ghost predicate SamePlaces(c: Core, d: Core) {
    forall f :: f in d.place <==> f in c.place
  }

  lemma DeadlinesStay(deadlines: set<Deadline>, c: Core, d: Core, held: set<FlowId>)
    requires DeadlinesOk(deadlines, c.boxes) && Tame(c, d) && CoreOk(d, held)
    ensures DeadlinesOk(deadlines, d.boxes)
  {
    hide CoreOk, Tame, Consistent, NothingMissed;
    ParkedAreParked(d, held);
    TameParts(c, d);
  }

  lemma ParkedAreParked(c: Core, held: set<FlowId>)
    requires CoreOk(c, held)
    ensures forall f :: f in c.boxes && c.boxes[f].parked.Some? ==> f in c.place && c.place[f] == Parked
  {
    hide QueueOk, HeldOk, SendersOk, IndexOk, AskersOk;
  }

  lemma TameParts(c: Core, d: Core)
    requires Tame(c, d)
    ensures TamePlaces(c.place, c.boxes, d.place, d.boxes) && TameParks(c.boxes, d.boxes)
    ensures d.running == c.running && d.sleeping == c.sleeping
    ensures d.boxes.Keys == c.boxes.Keys
  {
    hide TameReady, TameAskers, TameIds, TameParks;
  }

  lemma IdsStay(c: Core, d: Core, next: nat)
    requires IdsOk(c.boxes, next) && Tame(c, d)
    ensures IdsOk(d.boxes, next)
  {
    TameParts(c, d);
    hide Tame;
  }

  lemma ListedStays(directory: set<FlowId>, c: Core, d: Core)
    requires Listed(directory, c.place) && SamePlaces(c, d)
    ensures Listed(directory, d.place)
  {
  }

  lemma SnapStays(s: Snap, t: Snap, held: set<FlowId>, held': set<FlowId>)
    requires SnapOk(s, held) && t == s.(core := t.core)
    requires CoreOk(t.core, held') && Tame(s.core, t.core) && SamePlaces(s.core, t.core)
    ensures SnapOk(t, held')
  {
    hide CoreOk, Tame, SamePlaces, Listed, SignalsOk, MonitorsOk, DownsOk, LinksOk, NamesOk, IdsOk, DeadlinesOk,
         Capabilities.Sane;
    ListedStays(s.directory, s.core, t.core);
    IdsStay(s.core, t.core, s.nextFlow);
    DeadlinesStay(s.deadlines, s.core, t.core, held');
  }

  // ----- additions to the work list -----

  /** The list grew by flows of `ids`, all exiting for `reason`. */
  ghost predicate Grown(work: seq<PendingExit>, work': seq<PendingExit>, reason: Reason, ids: set<FlowId>) {
    && |work| <= |work'| && work'[..|work|] == work
    && forall k :: |work| <= k < |work'| ==> work'[k].reason == reason && work'[k].flow.id in ids
  }

  lemma GrownOne(work: seq<PendingExit>, mid: seq<PendingExit>, reason: Reason, ids: set<FlowId>, p: PendingExit)
    requires Grown(work, mid, reason, ids) && p.reason == reason && p.flow.id in ids
    ensures Grown(work, mid + [p], reason, ids)
  {
    assert (mid + [p])[..|work|] == mid[..|work|];
  }

  lemma GrownNothing(work: seq<PendingExit>, reason: Reason, ids: set<FlowId>)
    ensures Grown(work, work, reason, ids)
  {
  }

  // ----- first part: the flow leaves the indices -----

  function Unindexed(s: Snap, id: FlowId): Snap {
    s.(signals := s.signals - {id}, core := AskRemove(s.core.(waitingAt := s.core.waitingAt - {id}), id))
  }

  lemma HeldWaitsNowhere(c: Core, held: set<FlowId>, id: FlowId)
    requires CoreOk(c, held) && id in held
    ensures c.(waitingAt := c.waitingAt - {id}) == c
  {
    hide CoreOk;
    InHand(c, held, id);
    WaitingIndexed(c, held, id);
    assert c.waitingAt - {id} == c.waitingAt;
  }

  lemma SignalsShrink(signals: map<FlowId, Reason>, directory: set<FlowId>, id: FlowId)
    requires SignalsOk(signals, directory)
    ensures SignalsOk(signals - {id}, directory)
  {
  }

  lemma SignalsAside(s: Snap, held: set<FlowId>, id: FlowId)
    requires SnapOk(s, held)
    ensures SnapOk(s.(signals := s.signals - {id}), held)
  {
    hide CoreOk, SignalsOk, MonitorsOk, DownsOk, LinksOk, NamesOk, IdsOk, DeadlinesOk, Capabilities.Sane, Listed;
    SignalsShrink(s.signals, s.directory, id);
  }

  ghost predicate AskerGone(c: Core, d: Core, id: FlowId) {
    && d == c.(byAsker := d.byAsker, byTarget := d.byTarget, requestIds := d.requestIds)
    && (forall a :: a in d.byAsker <==> a in c.byAsker && a != id)
    && (forall a :: a in d.byAsker ==> d.byAsker[a] == c.byAsker[a])
  }

  lemma AskerGoneBy(c: Core, held: set<FlowId>, id: FlowId)
    requires CoreOk(c, held)
    ensures AskerGone(c, AskRemove(c, id), id) && Tame(c, AskRemove(c, id)) && SamePlaces(c, AskRemove(c, id))
  {
    hide CoreOk, AskRemove, Tame;
    AskRemoveFrame(c, id);
    AskRemoveSubset(c, held, id);
    TameAskRemove(c, held, id);
  }

  lemma UnindexedOk(s: Snap, held: set<FlowId>, id: FlowId)
    requires SnapOk(s, held) && id in held
    ensures var t := Unindexed(s, id);
            && SnapOk(t, held) && t == s.(core := t.core, signals := s.signals - {id})
            && Tame(s.core, t.core) && AskerGone(s.core, t.core, id) && id !in t.core.byAsker
  {
    hide SnapOk, CoreOk, Tame, AskRemove, AskerGone, SamePlaces;
    SnapCore(s, held);
    HeldWaitsNowhere(s.core, held, id);
    NotParkedInHand(s.core, held, id);
    AskRemoveOk(s.core, held, id);
    AskerGoneBy(s.core, held, id);
    SignalsAside(s, held, id);
    SnapStays(s.(signals := s.signals - {id}), Unindexed(s, id), held, held);
  }

  lemma NotParkedInHand(c: Core, held: set<FlowId>, id: FlowId)
    requires CoreOk(c, held) && id in held
    ensures id in c.place && c.place[id] != Parked
  {
    InHand(c, held, id);
  }

  lemma SnapCore(s: Snap, held: set<FlowId>)
    requires SnapOk(s, held)
    ensures CoreOk(s.core, held) && TablesOk(s)
  {
    hide CoreOk, TablesOk;
  }

  // ----- then its senders are stranded -----

  ghost predicate Stranded(s: Snap, t: Snap, id: FlowId, work: seq<PendingExit>, work': seq<PendingExit>)
  {
    && id in s.core.boxes && t == s.(core := CloseBox(s.core, id)) && id in t.core.boxes && t.core.boxes[id].closed
    && Tame(s.core, t.core)
    && (forall f :: f in s.core.place && s.core.place[f] == Parked ==>
          f in s.core.boxes && f in t.core.place && t.core.place[f] == Parked && f in t.core.boxes
          && t.core.boxes[f] == s.core.boxes[f])
    && EmptiedPlaces(s.core.place, t.core.place, id)
    && Grown(work, work', Fault, Waiters(s.core.place, id))
  }

  /** Exactly the flows that waited to send to `id` are in hand now. */
  ghost predicate EmptiedPlaces(p: map<FlowId, Place>, q: map<FlowId, Place>, id: FlowId) {
    forall f :: f in p ==> f in q && q[f] == if p[f] == WaitingIn(id) then Held else p[f]
  }

  function Waiters(place: map<FlowId, Place>, id: FlowId): set<FlowId> {
    set f | f in place && place[f] == WaitingIn(id)
  }

  lemma StrandKeeps(place: map<FlowId, Place>, stranded: set<FlowId>, id: FlowId)
    requires AllWaitFor(place, stranded, id)
    ensures forall f :: f in place && place[f] == Parked ==>
              f in Strand(place, stranded) && Strand(place, stranded)[f] == Parked
    ensures forall f :: f in Strand(place, stranded) <==> f in place
  {
  }

  lemma CloseKeepsParked(c: Core, held: set<FlowId>, id: FlowId)
    requires CoreOk(c, held) && id in held
    ensures id in c.boxes && id in CloseBox(c, id).boxes && CloseBox(c, id).boxes[id].closed
    ensures forall f :: f in c.place && c.place[f] == Parked ==>
              f in c.boxes && f in CloseBox(c, id).place && CloseBox(c, id).place[f] == Parked
              && f in CloseBox(c, id).boxes && CloseBox(c, id).boxes[f] == c.boxes[f]
    ensures SamePlaces(c, CloseBox(c, id))
  {
    hide CoreOk, WaitIds, Strand, AllWaitFor;
    InHand(c, held, id);
    CloseBoxOk(c, held, id);
    CoreCovered(c, held);
    StrandKeeps(c.place, WaitIds(c.boxes[id].waiting), id);
  }

  lemma CoreSenders(c: Core, held: set<FlowId>, id: FlowId)
    requires CoreOk(c, held) && id in c.boxes
    ensures WaitIds(c.boxes[id].waiting) == Waiters(c.place, id) && NoTwice(c.boxes[id].waiting)
    ensures WaitIds(c.boxes[id].waiting) !! held
  {
    hide QueueOk, BoxesOk, IndexOk, AskersOk, WaitIds, NoTwice;
  }

  lemma StrandedPlaces(c: Core, id: FlowId)
    requires id in c.boxes && WaitIds(c.boxes[id].waiting) == Waiters(c.place, id)
    ensures EmptiedPlaces(c.place, CloseBox(c, id).place, id)
  {
    hide WaitIds;
  }

  lemma StrandedOk(s: Snap, held: set<FlowId>, id: FlowId, work: seq<PendingExit>, work': seq<PendingExit>)
    requires SnapOk(s, held) && id in held && id in s.core.boxes
    requires Grown(work, work', Fault, WaitIds(s.core.boxes[id].waiting))
    ensures var t := s.(core := CloseBox(s.core, id));
            SnapOk(t, held + WaitIds(s.core.boxes[id].waiting)) && Stranded(s, t, id, work, work')
  {
    hide SnapOk, CoreOk, TablesOk, Tame, CloseBox, Grown, SamePlaces, WaitIds, Waiters, EmptiedPlaces;
    SnapCore(s, held);
    CloseBoxOk(s.core, held, id);
    TameCloseBox(s.core, held, id);
    CloseKeepsParked(s.core, held, id);
    CoreSenders(s.core, held, id);
    StrandedPlaces(s.core, id);
    SnapStays(s, s.(core := CloseBox(s.core, id)), held, held + WaitIds(s.core.boxes[id].waiting));
  }

  // ----- then everyone waiting for its answer is told -----

  /** The asker parked for an answer of `id` is told and runnable. */
  ghost predicate Told(c: Core, d: Core, a: FlowId, id: FlowId, reason: Reason) {
    && id <= 0xFFFF_FFFF_FFFF_FFFF
    && a in c.boxes && c.boxes[a].parked.Some? && a in d.ready
    && Gained(c.boxes[a].parked.value, c.boxes[a].parked.value.lastDest, ExitHop(id, ReasonCode(reason)), d.ready[a])
  }

  /** Every parked asker of `id` is told. */
  ghost predicate AllTold(c: Core, d: Core, id: FlowId, reason: Reason) {
    forall a :: a in c.byAsker && a != id && c.byAsker[a] == id && a in c.place && c.place[a] == Parked ==>
        Told(c, d, a, id, reason)
  }

  /** The index keeps exactly the askers that are neither `id` nor waiting for it. */
  ghost predicate AskersLeft(c: Core, d: Core, id: FlowId) {
    forall a :: a in d.byAsker <==> a in c.byAsker && a != id && c.byAsker[a] != id
  }

  function Orphans(c: Core, target: FlowId): set<FlowId> {
    if target in c.byTarget then c.byTarget[target] else {}
  }

  /** The askers of `target` leave all three maps at once. */
  function WithoutOrphans(c: Core, target: FlowId): Core {
    if target !in c.byTarget then c
    else c.(byTarget := c.byTarget - {target}, byAsker := c.byAsker - c.byTarget[target],
            requestIds := c.requestIds - c.byTarget[target])
  }

  function WithIndex(c: Core, w: Core): Core {
    c.(byAsker := w.byAsker, byTarget := w.byTarget, requestIds := w.requestIds)
  }

  /** Resuming a flow that is out of the index already, if it is parked. */
  function Unparked(c: Core, a: FlowId, hop: Value): Core {
    if a in c.boxes && c.boxes[a].parked.Some? then
      PutReady(HoldParked(c, a), Wrote(c.boxes[a].parked.value, c.boxes[a].parked.value.lastDest, hop))
    else c
  }

  lemma UnparkedIs(c: Core, held: set<FlowId>, w: Core, a: FlowId, hop: Value)
    requires CoreOk(c, held) && a in c.place
    ensures a in c.boxes && WithIndex(WakeOne(c, a, hop), w) == Unparked(WithIndex(c, w), a, hop)
  {
    hide CoreOk, WakeOne, Wrote;
    OpenBox(c, held, a);
    WakeOneFrame(c, a, hop);
    UnparkedFields(c, WakeOne(c, a, hop), w, a, hop);
  }

  lemma UnparkedFields(c: Core, d: Core, w: Core, a: FlowId, hop: Value)
    requires a in c.place && a in c.boxes && (c.boxes[a].parked.Some? <==> c.place[a] == Parked)
    requires c.boxes[a].parked.Some? ==> c.boxes[a].parked.value.id == a
    requires d.place == if c.place[a] == Parked then c.place[a := Ready] else c.place
    requires d.boxes == if c.place[a] == Parked then c.boxes[a := Vacated(c.boxes[a])] else c.boxes
    requires d.ready == if c.place[a] == Parked
                        then c.ready[a := Wrote(c.boxes[a].parked.value, c.boxes[a].parked.value.lastDest, hop)]
                        else c.ready
    requires d.waitingAt == c.waitingAt && d.running == c.running && d.sleeping == c.sleeping
    ensures WithIndex(d, w) == Unparked(WithIndex(c, w), a, hop)
  {
    hide Vacated;
    assert c.place[a := Held][a := Ready] == c.place[a := Ready];
  }

  /** Who is parked for an answer of `id`. */
  function AskersOf(byAsker: map<FlowId, FlowId>, id: FlowId): set<FlowId> {
    set a | a in byAsker && byAsker[a] == id
  }

  ghost predicate Woken(s: Snap, t: Snap, id: FlowId, reason: Reason) {
    && t == s.(core := t.core) && Tame(s.core, t.core) && SamePlaces(s.core, t.core)
    && WokenPlaces(s.core.place, t.core.place, AskersOf(s.core.byAsker, id))
    && id !in t.core.byTarget
    && (forall a :: a in t.core.byAsker <==> a in s.core.byAsker && s.core.byAsker[a] != id)
    && (forall f :: f in s.core.boxes ==> f in t.core.boxes && t.core.boxes[f].closed == s.core.boxes[f].closed)
    && (forall a :: a in s.core.byAsker && s.core.byAsker[a] == id && a in s.core.place && s.core.place[a] == Parked ==>
          Told(s.core, t.core, a, id, reason))
  }

  lemma NobodyToWake(s: Snap, held: set<FlowId>, id: FlowId, reason: Reason)
    requires SnapOk(s, held) && id !in s.core.byTarget
    ensures s.(core := WithoutOrphans(s.core, id)) == s && Woken(s, s, id, reason)
  {
    hide SnapOk, CoreOk, TablesOk, Tame, Told, Gained;
    SnapCore(s, held);
    TameItself(s.core, held);
    IndexAgrees(s.core, held, id);
  }

  lemma OrphansAreAskers(s: Snap, held: set<FlowId>, id: FlowId)
    requires SnapOk(s, held)
    ensures forall a :: a in Orphans(s.core, id) <==> a in s.core.byAsker && s.core.byAsker[a] == id
    ensures forall a :: a in Orphans(s.core, id) ==> a in s.core.place
    ensures Orphans(s.core, id) == {} <==> id !in s.core.byTarget
  {
    hide SnapOk, CoreOk, TablesOk;
    SnapCore(s, held);
    IndexAgrees(s.core, held, id);
  }

  lemma WakingPlaces(c0: Core, c: Core, waiters: set<FlowId>, left: set<FlowId>, hop: Value)
    requires Waking(c0, c, waiters, left, hop)
    ensures forall f :: f in c.place <==> f in c0.place
    ensures forall f :: f in c0.boxes ==> f in c.boxes && c.boxes[f].closed == c0.boxes[f].closed
    ensures left <= waiters && forall a :: a in left ==> a in c.place
  {
  }

  lemma WakingDone(c0: Core, c: Core, waiters: set<FlowId>, hop: Value)
    requires Waking(c0, c, waiters, {}, hop)
    ensures forall a :: a in c.byAsker <==> a in c0.byAsker && a !in waiters
    ensures forall a :: a in waiters && a in c0.place && c0.place[a] == Parked ==>
              a in c0.boxes && c0.boxes[a].parked.Some? && a in c.ready
              && Gained(c0.boxes[a].parked.value, c0.boxes[a].parked.value.lastDest, hop, c.ready[a])
  {
    assert waiters - {} == waiters;
    hide Gained, WokenPlaces, LeftAlone;
  }

  lemma WakingMoves(c0: Core, c: Core, waiters: set<FlowId>, hop: Value)
    requires Waking(c0, c, waiters, {}, hop)
    ensures WokenPlaces(c0.place, c.place, waiters)
  {
    assert waiters - {} == waiters;
    hide Gained, WokenPlaces;
  }

  /** When all orphans are resumed the maps say exactly what `take_waiters_of` left in them. */
  lemma WokenIndex(c0: Core, c: Core, held: set<FlowId>, id: FlowId)
    requires CoreOk(c0, held) && CoreOk(c, held) && Tame(c0, c) && id in c0.byTarget
    requires forall a :: a in c.byAsker <==> a in c0.byAsker && a !in Orphans(c0, id)
    ensures WithIndex(c, WithoutOrphans(c0, id)) == c && id !in c.byTarget
  {
    hide CoreOk, Tame;
    IndexAgrees(c0, held, id);
    IndexEmptied(c0, c, held, id, Orphans(c0, id));
  }

  lemma WokenAll(s: Snap, c: Core, held: set<FlowId>, id: FlowId, reason: Reason)
    requires SnapOk(s, held) && CoreOk(c, held) && Tame(s.core, c) && id <= ID_LIMIT && id in s.core.byTarget
    requires Waking(s.core, c, Orphans(s.core, id), {}, ExitHop(id, ReasonCode(reason)))
    ensures var t := s.(core := WithIndex(c, WithoutOrphans(s.core, id)));
            SnapOk(t, held) && Woken(s, t, id, reason)
  {
    hide SnapOk, TablesOk, CoreOk, Tame, Waking, Gained, Orphans, WithIndex, WithoutOrphans, WokenPlaces;
    SnapCore(s, held);
    OrphansAreAskers(s, held, id);
    WakingDone(s.core, c, Orphans(s.core, id), ExitHop(id, ReasonCode(reason)));
    WakingPlaces(s.core, c, Orphans(s.core, id), {}, ExitHop(id, ReasonCode(reason)));
    WakingMoves(s.core, c, Orphans(s.core, id), ExitHop(id, ReasonCode(reason)));
    assert Orphans(s.core, id) == AskersOf(s.core.byAsker, id);
    WokenIndex(s.core, c, held, id);
    SnapStays(s, s.(core := c), held, held);
  }

  /** Senders are stranded, askers told, signals and waits forgotten. */
  ghost predicate Detached(s: Snap, t: Snap, id: FlowId, reason: Reason, work: seq<PendingExit>,
                           work': seq<PendingExit>)
  {
    && t == s.(core := t.core, signals := s.signals - {id})
    && Tame(s.core, t.core) && AskersLeft(s.core, t.core, id) && AllTold(s.core, t.core, id, reason)
    && DetachedPlaces(s.core.place, t.core.place, s.core.byAsker, id)
    && Grown(work, work', Fault, Waiters(s.core.place, id))
  }

  /** Senders waiting for `id` are in hand, flows parked for its answer runnable, all others where they were. */
  ghost predicate DetachedPlaces(p: map<FlowId, Place>, q: map<FlowId, Place>, byAsker: map<FlowId, FlowId>, id: FlowId)
  {
    forall f :: f in p && f != id ==>
        f in q && q[f] == Settled(p[f], id, f in AskersOf(byAsker, id), false)
  }

  /** Nothing but the directory, its own tables and its relations still know the flow. */
  ghost predicate Unbound(s: Snap, id: FlowId) {
    && id in s.core.boxes && s.core.boxes[id].closed && id !in s.core.byAsker && id !in s.core.byTarget
       && id !in s.signals
  }

  lemma ToldAll(c0: Core, c1: Core, c2: Core, c3: Core, id: FlowId, reason: Reason)
    requires AskerGone(c0, c1, id) && c2.byAsker == c1.byAsker
    requires forall a :: a in c1.place && c1.place[a] == Parked ==>
               a in c1.boxes && a in c2.place && c2.place[a] == Parked && a in c2.boxes && c2.boxes[a] == c1.boxes[a]
    requires forall a :: a in c2.byAsker && c2.byAsker[a] == id && a in c2.place && c2.place[a] == Parked ==>
               Told(c2, c3, a, id, reason)
    ensures AllTold(c0, c3, id, reason)
  {
    hide Gained;
  }

  lemma AskersOut(c0: Core, c1: Core, c2: Core, c3: Core, id: FlowId)
    requires AskerGone(c0, c1, id) && c2.byAsker == c1.byAsker
    requires forall a :: a in c3.byAsker <==> a in c2.byAsker && c2.byAsker[a] != id
    ensures AskersLeft(c0, c3, id) && id !in c3.byAsker
  {
  }

  lemma CloseKeepsIndex(c: Core, id: FlowId)
    requires id in c.boxes
    ensures CloseBox(c, id).byAsker == c.byAsker
  {
    hide WaitIds, Strand;
  }

  lemma SamePlacesAre(c: Core, d: Core)
    requires SamePlaces(c, d)
    ensures forall f :: f in d.place <==> f in c.place
  {
  }

  lemma DetachedInParts(s0: Snap, s1: Snap, s2: Snap, s3: Snap, id: FlowId, reason: Reason, work: seq<PendingExit>,
                        work': seq<PendingExit>)
    requires s1 == s0.(core := s1.core, signals := s0.signals - {id}) && Tame(s0.core, s1.core)
             && AskerGone(s0.core, s1.core, id)
    requires Stranded(s1, s2, id, work, work') && Woken(s2, s3, id, reason)
    ensures Detached(s0, s3, id, reason, work, work') && Unbound(s3, id)
  {
    WaitersSame(s0.core, s1.core, id);
    CloseKeepsIndex(s1.core, id);
    SamePlacesAre(s2.core, s3.core);
    DetachedInTurn(s1.core.place, s2.core.place, s3.core.place, id, s0.core.byAsker, s1.core.byAsker);
    hide DetachedPlaces, EmptiedPlaces, WokenPlaces;
    ToldAll(s0.core, s1.core, s2.core, s3.core, id, reason);
    AskersOut(s0.core, s1.core, s2.core, s3.core, id);
    hide Tame, AskerGone, Told, Grown, Waiters, CloseBox, AskersLeft, AllTold, SamePlaces;
    TameTrans(s0.core, s1.core, s2.core);
    TameTrans(s0.core, s2.core, s3.core);
  }

  lemma DetachedInTurn(p: map<FlowId, Place>, q: map<FlowId, Place>, r: map<FlowId, Place>, id: FlowId,
                       before: map<FlowId, FlowId>, after: map<FlowId, FlowId>)
    requires EmptiedPlaces(p, q, id) && WokenPlaces(q, r, AskersOf(after, id)) && forall f :: f in r <==> f in q
    requires forall a :: a in after <==> a in before && a != id
    requires forall a :: a in after ==> after[a] == before[a]
    ensures DetachedPlaces(p, r, before, id)
  {
  }

  lemma WaitersSame(c: Core, d: Core, id: FlowId)
    requires AskerGone(c, d, id)
    ensures Waiters(d.place, id) == Waiters(c.place, id)
  {
  }

  // ----- second part: the tables forget the flow -----

  function NamesWithout(byName: map<Name, NameEntry>, f: FlowId): map<Name, NameEntry> {
    map n | n in byName && byName[n].flow != f :: byName[n]
  }

  function Swept(s: Snap, id: FlowId): Snap {
    s.(core := Retire(s.core, id), directory := s.directory - {id}, quotas := s.quotas - {id},
       monitors := OwnedRemoved(s.monitors, id), byName := NamesWithout(s.byName, id), byFlow := s.byFlow - {id},
       caps := Capabilities.RevokeFlow(s.caps, id))
  }

  lemma ListedAfter(directory: set<FlowId>, c: Core, id: FlowId)
    requires Listed(directory, c.place)
    ensures Listed(directory - {id}, Retire(c, id).place)
  {
  }

  lemma SignalsSweep(signals: map<FlowId, Reason>, directory: set<FlowId>, id: FlowId)
    requires SignalsOk(signals, directory) && id !in signals
    ensures SignalsOk(signals, directory - {id})
  {
  }

  lemma MonitorsSweep(monitors: map<nat, Monitor>, next: nat, directory: set<FlowId>, id: FlowId)
    requires MonitorsOk(monitors, next, directory)
    ensures MonitorsOk(OwnedRemoved(monitors, id), next, directory - {id})
  {
  }

  lemma DownsShrink(downs: seq<Down>, monitors: map<nat, Monitor>, next: nat, id: FlowId)
    requires DownsOk(downs, monitors, next)
    ensures DownsOk(downs, OwnedRemoved(monitors, id), next)
  {
  }

  lemma NamesSweep(byName: map<Name, NameEntry>, byFlow: map<FlowId, seq<Name>>, directory: set<FlowId>, id: FlowId)
    requires NamesOk(byName, byFlow, directory)
    ensures NamesOk(NamesWithout(byName, id), byFlow - {id}, directory - {id})
  {
  }

  lemma SweptTables(s: Snap, held: set<FlowId>, id: FlowId)
    requires TablesOk(s) && CoreOk(s.core, held) && id in held && id !in s.signals
    ensures TablesOk(Swept(s, id))
  {
    hide CoreOk, Tame, Listed, SignalsOk, MonitorsOk, DownsOk, LinksOk, NamesOk, IdsOk, DeadlinesOk, Capabilities.Sane,
         Capabilities.RevokeFlow, NamesWithout, OwnedRemoved;
    ListedAfter(s.directory, s.core, id);
    SignalsSweep(s.signals, s.directory, id);
    MonitorsSweep(s.monitors, s.nextMonitor, s.directory, id);
    DownsShrink(s.downs, s.monitors, s.nextMonitor, id);
    NamesSweep(s.byName, s.byFlow, s.directory, id);
    Capabilities.RevokeSane(s.caps, id);
  }

  lemma SweptOk(s: Snap, held: set<FlowId>, id: FlowId)
    requires SnapOk(s, held + {id}) && id !in held && Unbound(s, id)
    ensures SnapOk(Swept(s, id), held) && Tame(s.core, Swept(s, id).core) && id !in Swept(s, id).core.place
  {
    hide CoreOk, Tame, TablesOk;
    assert held + {id} - {id} == held;
    RetireOk(s.core, held + {id}, id);
    TameRetire(s.core, held + {id}, id);
    SweptTables(s, held + {id}, id);
  }

  // ----- third part: monitors, links and signals -----

  ghost predicate Fired(before: seq<Down>, after: seq<Down>, monitors: map<nat, Monitor>, id: FlowId, reason: Reason) {
    && |before| <= |after| && after[..|before|] == before
    && DownsFor(after[|before|..], monitors, id, reason)
  }

  /** Monitors on `id` have fired and are gone; no ask and no place changed otherwise. */
  ghost predicate Notified(s: Snap, t: Snap, id: FlowId, reason: Reason) {
    && t == s.(core := t.core, monitors := TargetRemoved(s.monitors, id), downs := t.downs)
    && Quiet(s.core, t.core) && Fired(s.downs, t.downs, s.monitors, id, reason)
    && DownPlaces(s.core, t.core, s.monitors, id, reason)
  }

  /** Among the parked flows exactly those roused by their DOWN hop are runnable. */
  ghost predicate DownPlaces(c: Core, d: Core, monitors: map<nat, Monitor>, id: FlowId, reason: Reason) {
    forall f :: f in c.place && f in d.place ==>
        d.place[f] == if c.place[f] == Parked && DownFits(c.boxes, monitors, f, id, reason) then Ready else c.place[f]
  }

  /** Flows were taken out or handed a hop, but the ask index did not change. */
  ghost predicate Quiet(c: Core, d: Core) {
    Tame(c, d) && d.byAsker == c.byAsker && SamePlaces(c, d)
  }

  lemma QuietTrans(c: Core, d: Core, e: Core)
    requires Quiet(c, d) && Quiet(d, e)
    ensures Quiet(c, e)
  {
    hide Tame;
    TameTrans(c, d, e);
  }

  lemma QuietItself(c: Core, held: set<FlowId>)
    requires CoreOk(c, held)
    ensures Quiet(c, c)
  {
    hide CoreOk, Tame;
    TameItself(c, held);
  }

  lemma MonitorsShrink(monitors: map<nat, Monitor>, next: nat, directory: set<FlowId>, target: FlowId)
    requires MonitorsOk(monitors, next, directory)
    ensures MonitorsOk(TargetRemoved(monitors, target), next, directory)
  {
  }

  /** Fired references leave the table for good. */
  lemma FiredDowns(before: seq<Down>, events: seq<Down>, monitors: map<nat, Monitor>, next: nat, directory: set<FlowId>,
                   target: FlowId, reason: Reason)
    requires DownsOk(before, monitors, next) && DownsFor(events, monitors, target, reason)
             && MonitorsOk(monitors, next, directory)
    ensures DownsOk(before + events, TargetRemoved(monitors, target), next)
    ensures Fired(before, before + events, monitors, target, reason)
  {
    var all := before + events;
    assert all[|before|..] == events && all[..|before|] == before;
    assert forall i :: 0 <= i < |before| ==> all[i] == before[i];
    assert forall i :: |before| <= i < |all| ==> all[i] == events[i - |before|];
  }

  /** One of the hops sent so far matches the filter `f` was parked under. */
  ghost predicate RousedBy(events: seq<Down>, boxes: map<FlowId, Mailbox>, f: FlowId) {
    f in boxes
    && exists k ::
      0 <= k < |events| && events[k].owner == f
      && FitsDown(boxes[f].filter, events[k].ref, events[k].target, events[k].reason)
  }

  /** Among the parked flows exactly those that a hop sent so far matches are runnable now. */
  ghost predicate RousedPlaces(c: Core, d: Core, events: seq<Down>) {
    forall f :: f in c.place && f in d.place ==>
        d.place[f] == if c.place[f] == Parked && RousedBy(events, c.boxes, f) then Ready else c.place[f]
  }

  lemma RousedAll(events: seq<Down>, boxes: map<FlowId, Mailbox>, monitors: map<nat, Monitor>, f: FlowId, id: FlowId,
                  reason: Reason)
    requires DownsFor(events, monitors, id, reason)
    ensures RousedBy(events, boxes, f) <==> DownFits(boxes, monitors, f, id, reason)
  {
    hide FitsDown;
  }

  lemma RousedDown(c: Core, d: Core, events: seq<Down>, monitors: map<nat, Monitor>, id: FlowId, reason: Reason)
    requires RousedPlaces(c, d, events) && DownsFor(events, monitors, id, reason)
    ensures DownPlaces(c, d, monitors, id, reason)
  {
    hide DownsFor, RousedBy, DownFits;
    forall f ensures RousedBy(events, c.boxes, f) <==> DownFits(c.boxes, monitors, f, id, reason) {
      RousedAll(events, c.boxes, monitors, f, id, reason);
    }
  }

  lemma NotifiedOk(s: Snap, c: Core, events: seq<Down>, held: set<FlowId>, id: FlowId, reason: Reason)
    requires SnapOk(s, held) && CoreOk(c, held) && Quiet(s.core, c) && DownsFor(events, s.monitors, id, reason)
    requires RousedPlaces(s.core, c, events)
    ensures var t := s.(core := c, monitors := TargetRemoved(s.monitors, id), downs := s.downs + events);
            SnapOk(t, held) && Notified(s, t, id, reason)
  {
    hide CoreOk, Tame, Listed, SignalsOk, MonitorsOk, DownsOk, LinksOk, NamesOk, IdsOk, DeadlinesOk, Capabilities.Sane,
         DownsFor, Fired, TargetRemoved, SamePlaces, RousedPlaces, DownPlaces;
    RousedDown(s.core, c, events, s.monitors, id, reason);
    SnapStays(s, s.(core := c), held, held);
    MonitorsShrink(s.monitors, s.nextMonitor, s.directory, id);
    FiredDowns(s.downs, events, s.monitors, s.nextMonitor, s.directory, id, reason);
  }

  // ----- kills -----

  /** A kill signal for a live flow, and the flow itself when it is parked or waits to send. */
  function KillTaken(s: Snap, f: FlowId, reason: Reason): (Snap, Option<Flow>) {
    if f !in s.directory then (s, None)
    else (s.(signals := s.signals[f := reason], core := Extract(s.core, f)), TakenFlow(s.core, f))
  }

  function TakenFlow(c: Core, f: FlowId): Option<Flow> {
    if f in c.boxes && c.boxes[f].parked.Some? then c.boxes[f].parked
    else if f in c.waitingAt && c.waitingAt[f] in c.boxes then TakeSender(c.boxes[c.waitingAt[f]], f).1
    else None
  }

  lemma TakenIs(c: Core, held: set<FlowId>, f: FlowId)
    requires CoreOk(c, held) && f in c.place
    ensures TakenFlow(c, f).Some? <==> Extractable(c, f)
    ensures TakenFlow(c, f).Some? ==> TakenFlow(c, f).value.id == f
  {
    hide CoreOk, Tame, TakeSender, HoldParked, HoldWaiting;
    ExtractOk(c, held, f);
  }

  lemma ExtractQuiet(c: Core, held: set<FlowId>, f: FlowId)
    requires CoreOk(c, held) && f in c.place
    ensures Quiet(c, Extract(c, f))
    ensures Extractable(c, f) ==> f !in held && CoreOk(Extract(c, f), held + {f})
    ensures !Extractable(c, f) ==> Extract(c, f) == c
  {
    hide CoreOk, Tame, TakeSender, Extract, Extractable;
    ExtractOk(c, held, f);
  }

  lemma SignalSet(s: Snap, held: set<FlowId>, f: FlowId, reason: Reason)
    requires SnapOk(s, held) && f in s.directory
    ensures SnapOk(s.(signals := s.signals[f := reason]), held)
  {
    hide CoreOk, MonitorsOk, DownsOk, LinksOk, NamesOk, IdsOk, DeadlinesOk, Capabilities.Sane, Listed;
  }

  lemma InDirectory(s: Snap, held: set<FlowId>, f: FlowId)
    requires SnapOk(s, held)
    ensures f in s.directory <==> f in s.core.place
  {
    hide CoreOk, SignalsOk, MonitorsOk, DownsOk, LinksOk, NamesOk, IdsOk, DeadlinesOk, Capabilities.Sane;
  }

  lemma KillTakenOk(s: Snap, held: set<FlowId>, f: FlowId, reason: Reason)
    requires SnapOk(s, held)
    ensures var (t, taken) := KillTaken(s, f, reason);
            && SnapOk(t, if taken.Some? then held + {f} else held)
            && t == s.(core := t.core, signals := t.signals) && Quiet(s.core, t.core)
            && t.signals == (if f in s.directory then s.signals[f := reason] else s.signals)
            && (taken.Some? ==> taken.value.id == f && f !in held)
            && (taken.Some? <==> f in s.directory && Extractable(s.core, f))
  {
    hide SnapOk, CoreOk, TablesOk, Extract, Extractable, TakenFlow, Tame, Quiet, SamePlaces;
    SnapCore(s, held);
    InDirectory(s, held, f);
    QuietItself(s.core, held);
    if f in s.directory {
      ExtractQuiet(s.core, held, f);
      TakenIs(s.core, held, f);
      SignalSet(s, held, f, reason);
      QuietParts(s.core, Extract(s.core, f));
      var mid := s.(signals := s.signals[f := reason]);
      SnapStays(mid, mid.(core := Extract(s.core, f)), held, if Extractable(s.core, f) then held + {f} else held);
    }
  }

  lemma KillPlaces(s: Snap, held: set<FlowId>, f: FlowId, reason: Reason)
    requires SnapOk(s, held)
    ensures KillTaken(s, f, reason).0.core.place
            == if f in s.directory && Extractable(s.core, f) then s.core.place[f := Held] else s.core.place
  {
    hide SnapOk, CoreOk, TablesOk, Extract, Extractable;
    SnapCore(s, held);
    InDirectory(s, held, f);
    if f in s.directory {
      ExtractPlaces(s.core, held, f);
    }
  }

  lemma QuietParts(c: Core, d: Core)
    requires Quiet(c, d)
    ensures Tame(c, d) && d.byAsker == c.byAsker && SamePlaces(c, d)
  {
  }

  /** So far the peers in `reached` have been signalled. */
  ghost predicate Reached(s: Snap, t: Snap, reached: set<FlowId>) {
    && t == s.(core := t.core, signals := t.signals) && Quiet(s.core, t.core)
    && Signalled(s.signals, t.signals, reached * s.directory)
    && TakenPlaces(s.core.place, t.core.place, s.directory, reached)
  }

  /** The flows in `hit` have a signal to die for their link now, the others the signals they had. */
  ghost predicate Signalled(before: map<FlowId, Reason>, after: map<FlowId, Reason>, hit: set<FlowId>) {
    && (forall f :: f in after <==> f in before || f in hit)
    && (forall f :: f in after ==> after[f] == if f in hit then Link else before[f])
  }

  lemma SignalledOne(before: map<FlowId, Reason>, after: map<FlowId, Reason>, hit: set<FlowId>, f: FlowId)
    requires Signalled(before, after, hit)
    ensures Signalled(before, after[f := Link], hit + {f})
  {
  }

  /** Every peer in `reached` that could be taken out is in hand. */
  ghost predicate TakenPlaces(p: map<FlowId, Place>, q: map<FlowId, Place>, directory: set<FlowId>,
                              reached: set<FlowId>)
  {
    forall f :: f in p && f in q ==>
        q[f] == if f in reached && f in directory && (p[f] == Parked || p[f].WaitingIn?) then Held else p[f]
  }

  lemma TakenPlacesOne(p: map<FlowId, Place>, q: map<FlowId, Place>, directory: set<FlowId>, reached: set<FlowId>,
                       f: FlowId, q': map<FlowId, Place>)
    requires TakenPlaces(p, q, directory, reached) && (forall x :: x in q ==> x in p)
    requires q' == if f in directory && f in q && (q[f] == Parked || q[f].WaitingIn?) then q[f := Held] else q
    ensures TakenPlaces(p, q', directory, reached + {f})
  {
  }

  lemma ReachedOne(s: Snap, t: Snap, held: set<FlowId>, reached: set<FlowId>, peer: FlowId)
    requires Reached(s, t, reached) && SnapOk(t, held)
    ensures Reached(s, KillTaken(t, peer, Link).0, reached + {peer})
  {
    hide SnapOk, Quiet, KillTaken, Signalled, TakenPlaces, Tame;
    KillPlaces(t, held, peer, Link);
    QuietParts(s.core, t.core);
    TakenPlacesOne(s.core.place, t.core.place, s.directory, reached, peer, KillTaken(t, peer, Link).0.core.place);
    KillTakenOk(t, held, peer, Link);
    QuietTrans(s.core, t.core, KillTaken(t, peer, Link).0.core);
    if peer in s.directory {
      SignalledOne(s.signals, t.signals, reached * s.directory, peer);
      assert (reached + {peer}) * s.directory == reached * s.directory + {peer};
    } else {
      assert (reached + {peer}) * s.directory == reached * s.directory;
    }
  }

  /** The exit of `id` for `reason` reaches the linked flow `f`: any reason but `Normal` does. */
  ghost predicate Hits(links: map<nat, Pair>, id: FlowId, reason: Reason, f: FlowId) {
    reason != Normal && Linked(links, id, f)
  }

  ghost predicate SignalsAfter(before: map<FlowId, Reason>, after: map<FlowId, Reason>, links: map<nat, Pair>,
                               directory: set<FlowId>,
                               id: FlowId, reason: Reason)
  {
    && (forall f :: f in after <==> (f in before && f != id) || (Hits(links, id, reason, f) && f in directory))
    && (forall f :: f in after ==>
          if Hits(links, id, reason, f) && f in directory then after[f] == Link
          else f in before && after[f] == before[f])
  }

  lemma SignalsReached(before: map<FlowId, Reason>, after: map<FlowId, Reason>, links: map<nat, Pair>,
                       directory: set<FlowId>,
                       id: FlowId, reason: Reason)
    requires id !in before && Signalled(before, after, Hit(links, id, reason) * directory)
    ensures SignalsAfter(before, after, links, directory, id, reason)
  {
    PeersAreLinked(links, id);
    hide Linked, Peers;
  }

  lemma LinksShrink(links: map<nat, Pair>, next: nat, id: FlowId)
    requires LinksOk(links, next)
    ensures LinksOk(LinksWithout(links, id), next)
  {
  }

  lemma LinksCut(s: Snap, held: set<FlowId>, id: FlowId)
    requires SnapOk(s, held)
    ensures SnapOk(s.(links := LinksWithout(s.links, id)), held)
  {
    hide CoreOk, SignalsOk, MonitorsOk, DownsOk, LinksOk, NamesOk, IdsOk, DeadlinesOk, Capabilities.Sane, Listed,
         LinksWithout;
    LinksShrink(s.links, s.nextLink, id);
  }

  /** The linked flows an exit for `reason` reaches. */
  function Hit(links: map<nat, Pair>, id: FlowId, reason: Reason): set<FlowId> {
    if reason != Normal then Peers(links, id) else {}
  }

  ghost predicate Propagated(s: Snap, t: Snap, id: FlowId, reason: Reason, work: seq<PendingExit>,
                             work': seq<PendingExit>)
  {
    && t == s.(core := t.core, signals := t.signals, monitors := TargetRemoved(s.monitors, id),
               links := LinksWithout(s.links, id),
               downs := t.downs)
    && Quiet(s.core, t.core)
    && SignalsAfter(s.signals, t.signals, s.links, s.directory, id, reason)
    && Fired(s.downs, t.downs, s.monitors, id, reason)
    && SpreadPlaces(s, t, id, reason)
    && Grown(work, work', Link, Hit(s.links, id, reason))
  }

  ghost predicate SpreadPlaces(s: Snap, t: Snap, id: FlowId, reason: Reason) {
    forall f :: f in s.core.place ==>
        f in t.core.place
        && t.core.place[f] == Spread(s.core.place[f], DownFits(s.core.boxes, s.monitors, f, id, reason),
                                     Hits(s.links, id, reason, f) && f in s.directory)
  }

  /** Where DOWN hops, and then links, leave a flow. */
  function Spread(at: Place, roused: bool, hit: bool): Place {
    if at == Parked && roused then Ready
    else if (at == Parked || at.WaitingIn?) && hit then Held
    else at
  }

  lemma PropagatedInParts(s0: Snap, s1: Snap, s3: Snap, id: FlowId, reason: Reason, work: seq<PendingExit>,
                          work': seq<PendingExit>)
    requires Notified(s0, s1, id, reason)
             && Reached(s1.(links := LinksWithout(s1.links, id)), s3, Hit(s0.links, id, reason))
    requires id !in s0.signals && Grown(work, work', Link, Hit(s0.links, id, reason))
    ensures Propagated(s0, s3, id, reason, work, work')
  {
    hide Quiet, Fired, SignalsAfter, Signalled, Grown, LinksWithout, TargetRemoved, Hit, Linked;
    SpreadInTurn(s0, s1, s3, id, reason);
    hide SpreadPlaces, DownPlaces, TakenPlaces;
    QuietTrans(s0.core, s1.core, s3.core);
    SignalsReached(s0.signals, s3.signals, s0.links, s0.directory, id, reason);
  }

  lemma SpreadInTurn(s0: Snap, s1: Snap, s3: Snap, id: FlowId, reason: Reason)
    requires Notified(s0, s1, id, reason)
             && Reached(s1.(links := LinksWithout(s1.links, id)), s3, Hit(s0.links, id, reason))
    ensures SpreadPlaces(s0, s3, id, reason)
  {
    PeersAreLinked(s0.links, id);
    hide Fired, Signalled, LinksWithout, TargetRemoved, Tame, Peers, Linked, DownFits;
  }

  // ----- one whole exit -----

  /**
   The exit of `id` makes the parked flow `f` runnable: it waits for an answer of `id`, or for a
   hop such as the DOWN hop its monitor on `id` yields.
   */
  ghost predicate Rouses(s: Snap, f: FlowId, id: FlowId, reason: Reason) {
    f in AskersOf(s.core.byAsker, id) || DownFits(s.core.boxes, s.monitors, f, id, reason)
  }

  /** Where the exit leaves every other flow. */
  ghost predicate PlacesAfter(s: Snap, t: Snap, id: FlowId, reason: Reason) {
    forall f :: f in s.core.place && f != id ==>
        f in t.core.place
        && t.core.place[f]
           == Settled(s.core.place[f], id, Rouses(s, f, id, reason), Hits(s.links, id, reason, f))
  }

  /** Why a flow is finalized: it was waiting to send to `id`, or it is linked to `id`, which did not exit normally. */
  ghost predicate CausedBy(p: PendingExit, place: map<FlowId, Place>, links: map<nat, Pair>, id: FlowId, reason: Reason)
  {
    || (p.reason == Fault && p.flow.id in place && place[p.flow.id] == WaitingIn(id))
    || (p.reason == Link && Hits(links, id, reason, p.flow.id))
  }

  ghost predicate AllCaused(work: seq<PendingExit>, work': seq<PendingExit>, place: map<FlowId, Place>, links: map<nat,
                            Pair>, id: FlowId, reason: Reason) {
    && |work| <= |work'| && work'[..|work|] == work
    && forall k :: |work| <= k < |work'| ==> CausedBy(work'[k], place, links, id, reason)
  }

  ghost predicate Exited(s: Snap, t: Snap, id: FlowId, reason: Reason, work: seq<PendingExit>, work': seq<PendingExit>)
  {
    && t == s.(core := t.core, directory := s.directory - {id}, quotas := s.quotas - {id}, signals := t.signals,
               monitors := MonitorsWithout(s.monitors, id), links := LinksWithout(s.links, id),
                 byName := NamesWithout(s.byName, id),
               byFlow := s.byFlow - {id}, caps := Capabilities.RevokeFlow(s.caps, id), downs := t.downs)
    && Tame(s.core, t.core) && AskersLeft(s.core, t.core, id) && AllTold(s.core, t.core, id, reason)
    && SignalsAfter(s.signals, t.signals, s.links, t.directory, id, reason)
    && Fired(s.downs, t.downs, OwnedRemoved(s.monitors, id), id, reason)
    && PlacesAfter(s, t, id, reason)
    && AllCaused(work, work', s.core.place, s.links, id, reason)
  }

  lemma AllToldStays(c0: Core, c1: Core, c3: Core, id: FlowId, reason: Reason)
    requires AllTold(c0, c1, id, reason) && Tame(c1, c3)
    ensures AllTold(c0, c3, id, reason)
  {
    hide Tame, Gained;
    TameKeepsReady(c1, c3);
  }

  lemma AskersLeftStays(c0: Core, c1: Core, c3: Core, id: FlowId)
    requires AskersLeft(c0, c1, id) && c3.byAsker == c1.byAsker
    ensures AskersLeft(c0, c3, id)
  {
  }

  lemma SignalsOverall(before: map<FlowId, Reason>, after: map<FlowId, Reason>, links: map<nat, Pair>,
                       directory: set<FlowId>,
                       id: FlowId, reason: Reason)
    requires SignalsAfter(before - {id}, after, links, directory, id, reason)
    ensures SignalsAfter(before, after, links, directory, id, reason)
  {
    hide Hits;
  }

  /** Work added by the exit has its cause there. */
  lemma Causes(work: seq<PendingExit>, mid: seq<PendingExit>, all: seq<PendingExit>, place: map<FlowId, Place>,
               links: map<nat, Pair>,
               id: FlowId, reason: Reason)
    requires Grown(work, mid, Fault, Waiters(place, id)) && Grown(mid, all, Link, Hit(links, id, reason))
    ensures AllCaused(work, all, place, links, id, reason)
  {
    hide Linked, Peers;
    PeersAreLinked(links, id);
    assert all[..|work|] == all[..|mid|][..|work|];
    forall k | |work| <= k < |all| ensures CausedBy(all[k], place, links, id, reason) {
      if k < |mid| {
        assert all[k] == all[..|mid|][k] == mid[k];
      }
    }
  }

  lemma DownFitsSame(b: map<FlowId, Mailbox>, d: map<FlowId, Mailbox>, monitors: map<nat, Monitor>, f: FlowId,
                     id: FlowId, reason: Reason)
    requires f != id && (f in b <==> f in d) && (f in b ==> d[f].filter == b[f].filter)
    ensures DownFits(d, OwnedRemoved(monitors, id), f, id, reason) <==> DownFits(b, monitors, f, id, reason)
  {
    hide FitsDown;
    if r :| f in b && r in monitors && monitors[r] == Monitor(f, id) && FitsDown(b[f].filter, r, id, reason) {
      assert r in OwnedRemoved(monitors, id);
    }
  }

  lemma FilterStays(c: Core, d: Core, f: FlowId)
    requires Tame(c, d) && f in d.place && d.place[f] == Parked
    ensures f in c.boxes && f in d.boxes && d.boxes[f].filter == c.boxes[f].filter
  {
    TameParts(c, d);
    hide Tame, TameParks;
  }

  lemma PlacesOverall(s0: Snap, s1: Snap, s3: Snap, id: FlowId, reason: Reason, work: seq<PendingExit>,
                      mid: seq<PendingExit>, all: seq<PendingExit>)
    requires Detached(s0, s1, id, reason, work, mid) && Propagated(Swept(s1, id), s3, id, reason, mid, all)
    requires Listed(s0.directory, s0.core.place)
    ensures PlacesAfter(s0, s3, id, reason)
  {
    hide Tame, AskersLeft, AllTold, Grown, SignalsAfter, Fired, Quiet, OwnedRemoved, TargetRemoved, LinksWithout,
         NamesWithout, Capabilities.RevokeFlow, DownFits, AskersOf, Hits, Hit, Waiters;
    forall f | f in s0.core.place && f != id
      ensures f in s3.core.place
              && s3.core.place[f]
                 == Settled(s0.core.place[f], id, Rouses(s0, f, id, reason), Hits(s0.links, id, reason, f))
    {
      if s1.core.place[f] == Parked {
        FilterStays(s0.core, s1.core, f);
        DownFitsSame(s0.core.boxes, s1.core.boxes, s0.monitors, f, id, reason);
      }
    }
  }

  lemma ExitInParts(s0: Snap, s1: Snap, s3: Snap, id: FlowId, reason: Reason, work: seq<PendingExit>,
                    mid: seq<PendingExit>,
                    all: seq<PendingExit>)
    requires Detached(s0, s1, id, reason, work, mid) && Tame(s1.core, Swept(s1, id).core)
             && Propagated(Swept(s1, id), s3, id, reason, mid, all)
    requires Listed(s0.directory, s0.core.place)
    ensures Exited(s0, s3, id, reason, work, all)
  {
    PlacesOverall(s0, s1, s3, id, reason, work, mid, all);
    hide PlacesAfter, DetachedPlaces, SpreadPlaces, Tame, AskersLeft, AllTold, Grown, SignalsAfter, Fired, AllCaused,
         Waiters, Hit, OwnedRemoved, TargetRemoved,
         MonitorsWithout,
         LinksWithout, NamesWithout, Capabilities.RevokeFlow, SamePlaces;
    var s2 := Swept(s1, id);
    TameTrans(s0.core, s1.core, s2.core);
    TameTrans(s0.core, s2.core, s3.core);
    TameTrans(s1.core, s2.core, s3.core);
    MonitorsTwice(s0.monitors, id);
    AllToldStays(s0.core, s1.core, s3.core, id, reason);
    AskersLeftStays(s0.core, s1.core, s3.core, id);
    SignalsOverall(s0.signals, s3.signals, s0.links, s2.directory, id, reason);
    Causes(work, mid, all, s0.core.place, s0.links, id, reason);
  }

  lemma FinalizingId(s: Snap, held: set<FlowId>, id: FlowId)
    requires SnapOk(s, held) && id in held
    ensures id in s.directory && 0 < id <= ID_LIMIT && id in s.core.boxes
  {
    hide CoreOk, SignalsOk, MonitorsOk, DownsOk, LinksOk, NamesOk, DeadlinesOk, Capabilities.Sane;
    InHand(s.core, held, id);
  }
}
