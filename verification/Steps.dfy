/**
 The single steps of workers, the timer and the host (crates/byteflow/src/scheduler/{worker,timer,
 runtime,monitor,link,registry}.rs) on the tables as one value, and the proof that each of them
 keeps everything that `SnapOk` promises.
 */
module Steps {
  import opened Wrappers
  import opened Values
  import opened MailboxSpec
  import opened Residence
  import opened Lifecycle
  import opened Exits
  import Capabilities

  // ----- a flow in the hands of a step -----

  /** The step holds just this flow, which is open and in no index. */
  ghost predicate InStep(s: Snap, f: FlowId) {
    SnapOk(s, {f}) && InOpenHand(s.core, {f}, f) && f !in s.core.byAsker
  }

  function TakeReady(s: Snap, f: FlowId): Snap { s.(core := HoldReady(s.core, f)) }
  function TakeRunning(s: Snap, f: FlowId): Snap { s.(core := HoldRunning(s.core, f)) }
  function TakeSleeping(s: Snap, f: FlowId): Snap { s.(core := HoldSleeping(s.core, f)) }
  function ToReady(s: Snap, flow: Flow): Snap { s.(core := PutReady(s.core, flow)) }
  function ToRunning(s: Snap, flow: Flow): Snap { s.(core := PutRunning(s.core, flow)) }
  function ToSleeping(s: Snap, flow: Flow): Snap { s.(core := PutSleeping(s.core, flow)) }

  lemma SnapMoved(s: Snap, t: Snap, held: set<FlowId>, held': set<FlowId>)
    requires SnapOk(s, held) && t == s.(core := t.core, deadlines := t.deadlines)
    requires CoreOk(t.core, held') && SamePlaces(s.core, t.core) && t.core.boxes.Keys == s.core.boxes.Keys
    requires DeadlinesOk(t.deadlines, t.core.boxes)
    ensures SnapOk(t, held')
  {
    hide CoreOk, Listed, SignalsOk, MonitorsOk, DownsOk, LinksOk, NamesOk, DeadlinesOk, Capabilities.Sane, SamePlaces;
    ListedStays(s.directory, s.core, t.core);
  }

  lemma SnapDeadlines(s: Snap, held: set<FlowId>)
    requires SnapOk(s, held)
    ensures DeadlinesOk(s.deadlines, s.core.boxes)
  {
    hide CoreOk, Listed, SignalsOk, MonitorsOk, DownsOk, LinksOk, NamesOk, IdsOk, DeadlinesOk, Capabilities.Sane;
  }

  /** A flow in a queue is open, not parked and not waiting for an answer. */
  lemma QueuedIsFree(c: Core, f: FlowId)
    requires CoreOk(c, {})
    ensures f in c.ready || f in c.running || f in c.sleeping ==>
              f in c.place && f in c.boxes && !c.boxes[f].closed && f !in c.byAsker
    ensures f in c.ready ==> c.ready[f].id == f && c.place[f] == Ready
    ensures f in c.running ==> c.running[f].id == f && c.place[f] == Running
    ensures f in c.sleeping ==> c.sleeping[f].id == f && c.place[f] == Sleeping
  {
    hide SendersOk, IndexOk, HeldOk, Asks, AskFilter;
  }

  lemma TakenFromQueue(s: Snap, c: Core, f: FlowId)
    requires SnapOk(s, {}) && CoreOk(c, {} + {f}) && f in s.core.boxes && !s.core.boxes[f].closed
             && f in s.core.place && f !in s.core.byAsker
    requires c.boxes == s.core.boxes && c.place == s.core.place[f := Held] && c.byAsker == s.core.byAsker
    ensures InStep(s.(core := c), f)
  {
    hide SnapOk, CoreOk, TablesOk;
    assert {} + {f} == {f};
    SnapDeadlines(s, {});
    SnapMoved(s, s.(core := c), {}, {f});
  }

  lemma TakeReadyOk(s: Snap, f: FlowId)
    requires SnapOk(s, {}) && f in s.core.ready
    ensures InStep(TakeReady(s, f), f) && s.core.ready[f].id == f
  {
    hide SnapOk, CoreOk, TablesOk, InStep;
    SnapCore(s, {});
    QueuedIsFree(s.core, f);
    HoldReadyOk(s.core, {}, f);
    TakenFromQueue(s, HoldReady(s.core, f), f);
  }

  lemma TakeRunningOk(s: Snap, f: FlowId)
    requires SnapOk(s, {}) && f in s.core.running
    ensures InStep(TakeRunning(s, f), f) && s.core.running[f].id == f
  {
    hide SnapOk, CoreOk, TablesOk, InStep;
    SnapCore(s, {});
    QueuedIsFree(s.core, f);
    HoldRunningOk(s.core, {}, f);
    TakenFromQueue(s, HoldRunning(s.core, f), f);
  }

  lemma TakeSleepingOk(s: Snap, f: FlowId)
    requires SnapOk(s, {}) && f in s.core.sleeping
    ensures InStep(TakeSleeping(s, f), f) && s.core.sleeping[f].id == f
  {
    hide SnapOk, CoreOk, TablesOk, InStep;
    SnapCore(s, {});
    QueuedIsFree(s.core, f);
    HoldSleepingOk(s.core, {}, f);
    TakenFromQueue(s, HoldSleeping(s.core, f), f);
  }

  lemma PutDown(s: Snap, c: Core, f: FlowId)
    requires InStep(s, f) && CoreOk(c, {f} - {f}) && c.boxes == s.core.boxes && SamePlaces(s.core, c)
    ensures SnapOk(s.(core := c), {})
  {
    hide SnapOk, CoreOk, TablesOk, SamePlaces;
    assert {f} - {f} == {};
    SnapDeadlines(s, {f});
    SnapMoved(s, s.(core := c), {f}, {});
  }

  lemma ToReadyOk(s: Snap, flow: Flow)
    requires InStep(s, flow.id)
    ensures SnapOk(ToReady(s, flow), {})
  {
    hide SnapOk, CoreOk, TablesOk;
    SnapCore(s, {flow.id});
    InHand(s.core, {flow.id}, flow.id);
    PutReadyOk(s.core, {flow.id}, flow);
    PutDown(s, PutReady(s.core, flow), flow.id);
  }

  lemma ToRunningOk(s: Snap, flow: Flow)
    requires InStep(s, flow.id)
    ensures SnapOk(ToRunning(s, flow), {})
  {
    hide SnapOk, CoreOk, TablesOk;
    SnapCore(s, {flow.id});
    InHand(s.core, {flow.id}, flow.id);
    PutRunningOk(s.core, {flow.id}, flow);
    PutDown(s, PutRunning(s.core, flow), flow.id);
  }

  lemma ToSleepingOk(s: Snap, flow: Flow)
    requires InStep(s, flow.id)
    ensures SnapOk(ToSleeping(s, flow), {})
  {
    hide SnapOk, CoreOk, TablesOk;
    SnapCore(s, {flow.id});
    InHand(s.core, {flow.id}, flow.id);
    PutSleepingOk(s.core, {flow.id}, flow);
    PutDown(s, PutSleeping(s.core, flow), flow.id);
  }

  // ----- hops on their way -----

  /** What `deliver` does; `true` is the refusal of a full inbox. A hop to a dead flow is dropped. */
  function HopDelivered(s: Snap, target: FlowId, hop: Value, cfg: Config): (Snap, bool) {
    if target !in s.directory || target !in s.core.boxes then (s, false)
    else
      var (m, d) := Push(s.core.boxes[target], hop, cfg);
      match d
      case Handoff(flow) => (s.(core := HandOver(s.core, target, Wrote(flow, flow.lastDest, hop))), false)
      case Full(_) => (s.(core := WithBox(s.core, target, m)), true)
      case Queued => (s.(core := WithBox(s.core, target, m)), false)
      case QueuedDropOldest => (s.(core := WithBox(s.core, target, m)), false)
      case DroppedNewest => (s.(core := WithBox(s.core, target, m)), false)
  }

  lemma BoxedOk(s: Snap, held: set<FlowId>, f: FlowId, m: Mailbox)
    requires SnapOk(s, held) && f in s.core.boxes && m.(queue := s.core.boxes[f].queue) == s.core.boxes[f]
    requires NothingMissed(s.core.boxes[f]) ==> NothingMissed(m)
    ensures SnapOk(s.(core := WithBox(s.core, f, m)), held)
  {
    hide SnapOk, CoreOk, TablesOk, Tame, NothingMissed;
    SnapCore(s, held);
    WithBoxOk(s.core, held, f, m);
    TameWithBox(s.core, held, f, m);
    SnapStays(s, s.(core := WithBox(s.core, f, m)), held, held);
  }

  lemma HandedOk(s: Snap, held: set<FlowId>, a: FlowId, flow: Flow)
    requires SnapOk(s, held) && a in s.core.place && s.core.place[a] == Parked && flow.id == a
    ensures a in s.core.boxes && SnapOk(s.(core := HandOver(s.core, a, flow)), held)
  {
    hide SnapOk, CoreOk, TablesOk, Tame, AskRemove;
    SnapCore(s, held);
    HandOverOk(s.core, held, a, flow);
    TameHandOver(s.core, held, a, flow);
    AskRemoveFrame(HoldParked(s.core, a), a);
    SnapStays(s, s.(core := HandOver(s.core, a, flow)), held, held);
  }

  lemma LiveBox(s: Snap, held: set<FlowId>, f: FlowId)
    requires SnapOk(s, held) && f in s.directory
    ensures f in s.core.place && f in s.core.boxes
    ensures s.core.boxes[f].parked.Some? <==> s.core.place[f] == Parked
    ensures s.core.boxes[f].parked.Some? ==> s.core.boxes[f].parked.value.id == f
  {
    hide SnapOk, CoreOk, TablesOk;
    SnapCore(s, held);
    InDirectory(s, held, f);
    OpenBox(s.core, held, f);
  }

  lemma DeliveredOk(s: Snap, held: set<FlowId>, target: FlowId, hop: Value, cfg: Config)
    requires SnapOk(s, held)
    ensures SnapOk(HopDelivered(s, target, hop, cfg).0, held)
    ensures target in s.directory ==> target in s.core.boxes
  {
    hide SnapOk, HandOver, WithBox, Matches, Enqueue, NothingMissed;
    if target in s.directory {
      LiveBox(s, held, target);
      var (m, d) := Push(s.core.boxes[target], hop, cfg);
      PushMissesNothing(s.core.boxes[target], hop, cfg);
      if d.Handoff? {
        HandedOk(s, held, target, Wrote(d.flow, d.flow.lastDest, hop));
      } else {
        BoxedOk(s, held, target, m);
      }
    }
  }

  /**
   A hop that ends the wait of an asker is the answer to its request: it carries the
   request id and comes from the flow that was asked, which is still live.
   */
  lemma OnlyTheAnswerEndsAnAsk(s: Snap, held: set<FlowId>, a: FlowId, hop: Value)
    requires SnapOk(s, held) && a in s.core.byAsker && a in s.core.place && s.core.place[a] == Parked
    requires a in s.core.boxes && Matches(s.core.boxes[a].filter, hop)
    ensures a in s.core.requestIds
    ensures hop.Hop? && hop.msg.requestId == s.core.requestIds[a] && hop.msg.sender == s.core.byAsker[a]
    ensures s.core.byAsker[a] in s.directory
  {
    hide TablesOk, QueueOk, HeldOk, BoxesOk, SendersOk;
    InDirectory(s, held, s.core.byAsker[a]);
  }

  // ----- receiving -----

  /** A running flow looks into its inbox; a match goes to its register at once. */
  function Received(s: Snap, f: FlowId, dest: u8, filter: WaitFilter): (Snap, bool)
    requires f in s.core.running && f in s.core.boxes
  {
    var flow := s.core.running[f].(lastDest := Some(dest));
    var (m, v) := TryPop(s.core.boxes[f], filter);
    if v.None? then (s.(core := s.core.(running := s.core.running[f := flow])), false)
    else (s.(core := WithBox(s.core, f, m).(running := s.core.running[f := Wrote(flow, Some(dest), v.value)])), true)
  }

  lemma RunningChanged(c: Core, held: set<FlowId>, f: FlowId, flow: Flow)
    requires CoreOk(c, held) && f in c.running && flow.id == f
    ensures CoreOk(c.(running := c.running[f := flow]), held)
  {
    hide HeldOk, BoxesOk, SendersOk, IndexOk, AskersOk;
  }

  lemma RunningStep(s: Snap, held: set<FlowId>, f: FlowId, flow: Flow)
    requires SnapOk(s, held) && f in s.core.running && flow.id == f
    ensures SnapOk(s.(core := s.core.(running := s.core.running[f := flow])), held)
  {
    hide SnapOk, CoreOk, TablesOk;
    SnapCore(s, held);
    RunningChanged(s.core, held, f, flow);
    SnapDeadlines(s, held);
    SnapMoved(s, s.(core := s.core.(running := s.core.running[f := flow])), held, held);
  }

  lemma ReceivedOk(s: Snap, f: FlowId, dest: u8, filter: WaitFilter)
    requires SnapOk(s, {}) && f in s.core.running
    ensures f in s.core.boxes && s.core.boxes[f].parked.None? && s.core.running[f].id == f
    ensures SnapOk(Received(s, f, dest, filter).0, {})
  {
    hide SnapOk, CoreOk, TablesOk, TakeFrom;
    SnapCore(s, {});
    QueuedIsFree(s.core, f);
    FoundInBoxes(s.core, {}, f);
    var flow := s.core.running[f].(lastDest := Some(dest));
    var (m, v) := TryPop(s.core.boxes[f], filter);
    BoxedOk(s, {}, f, m);
    RunningStep(s, {}, f, flow);
    if v.Some? {
      RunningStep(s.(core := WithBox(s.core, f, m)), {}, f, Wrote(flow, Some(dest), v.value));
    }
  }

  // ----- parking -----

  /** The flow resumes with the hop that was found while it was about to park. */
  function Answered(flow: Flow, dest: u8): Flow {
    if flow.pendingMessage.None? then flow
    else Wrote(flow.(pendingMessage := None), Some(dest), flow.pendingMessage.value)
  }

  function Armed(deadlines: set<Deadline>, f: FlowId, dest: u8, m: Mailbox, timeout: bool): set<Deadline> {
    if timeout then deadlines + {Deadline(f, dest, m.epoch, m.parks)} else deadlines
  }

  /** `park_on_mailbox`: installed with its deadline, or resumed because a match had come in. */
  function ParkedPlain(s: Snap, flow: Flow, dest: u8, filter: WaitFilter, timeout: bool): Snap
    requires flow.id in s.core.boxes
  {
    var (m, r) := Park(s.core.boxes[flow.id], flow, filter);
    match r
    case Raced(raced) => ToReady(s.(core := WithBox(s.core, flow.id, m)), Answered(raced, dest))
    case Installed(_) =>
      s.(core := PutParked(s.core, flow, filter), deadlines := Armed(s.deadlines, flow.id, dest, m, timeout))
  }

  lemma BoxedInStep(s: Snap, f: FlowId, m: Mailbox)
    requires InStep(s, f) && m.(queue := s.core.boxes[f].queue) == s.core.boxes[f]
    ensures InStep(s.(core := WithBox(s.core, f, m)), f)
  {
    hide SnapOk, CoreOk, TablesOk;
    SnapCore(s, {f});
    InHand(s.core, {f}, f);
    BoxedOk(s, {f}, f, m);
  }

  /** A new park arms a new deadline; those of earlier parks are stale from now on. */
  lemma DeadlinesPark(deadlines: set<Deadline>, boxes: map<FlowId, Mailbox>, flow: Flow, dest: u8,
                      filter: WaitFilter, timeout: bool)
    requires DeadlinesOk(deadlines, boxes) && flow.id in boxes && flow.lastDest == Some(dest)
    requires NothingMissed(Occupied(boxes[flow.id], flow, filter))
    ensures var m := Occupied(boxes[flow.id], flow, filter);
            DeadlinesOk(Armed(deadlines, flow.id, dest, m, timeout), boxes[flow.id := m])
  {
    hide Consistent, NothingMissed;
    var m := Occupied(boxes[flow.id], flow, filter);
    EpochOfNext(boxes[flow.id]);
  }

  lemma EpochOfNext(m: Mailbox)
    ensures m.epoch == m.parks % EPOCHS ==> (m.epoch + 1) % EPOCHS == (m.parks + 1) % EPOCHS
  {
  }

  lemma ParkedSnap(s: Snap, c: Core, flow: Flow, dest: u8, filter: WaitFilter, timeout: bool)
    requires SnapOk(s, {flow.id}) && flow.id in s.core.boxes && flow.id in s.core.place && flow.lastDest == Some(dest)
    requires CoreOk(c, {flow.id} - {flow.id})
             && c.boxes == s.core.boxes[flow.id := Occupied(s.core.boxes[flow.id], flow, filter)]
    requires c.place == s.core.place[flow.id := Parked] && NothingMissed(Occupied(s.core.boxes[flow.id], flow, filter))
    ensures var box := Occupied(s.core.boxes[flow.id], flow, filter);
            SnapOk(s.(core := c, deadlines := Armed(s.deadlines, flow.id, dest, box, timeout)), {})
  {
    hide SnapOk, CoreOk, TablesOk, Occupied, Armed, NothingMissed;
    assert {flow.id} - {flow.id} == {};
    SnapDeadlines(s, {flow.id});
    DeadlinesPark(s.deadlines, s.core.boxes, flow, dest, filter, timeout);
    var box := Occupied(s.core.boxes[flow.id], flow, filter);
    SnapMoved(s, s.(core := c, deadlines := Armed(s.deadlines, flow.id, dest, box, timeout)), {flow.id}, {});
  }

  lemma ParkedPlainOk(s: Snap, flow: Flow, dest: u8, filter: WaitFilter, timeout: bool)
    requires InStep(s, flow.id) && !AskFilter(filter) && flow.lastDest == Some(dest)
    ensures SnapOk(ParkedPlain(s, flow, dest, filter, timeout), {})
  {
    hide SnapOk, CoreOk, TablesOk, TakeFrom, Armed;
    var (m, r) := Park(s.core.boxes[flow.id], flow, filter);
    SnapCore(s, {flow.id});
    InHand(s.core, {flow.id}, flow.id);
    if r.Raced? {
      BoxedInStep(s, flow.id, m);
      ToReadyOk(s.(core := WithBox(s.core, flow.id, m)), Answered(r.flow, dest));
    } else {
      PutParkedOk(s.core, {flow.id}, flow, filter);
      ParkMissesNothing(s.core.boxes[flow.id], flow, filter);
      ParkedSnap(s, PutParked(s.core, flow, filter), flow, dest, filter, timeout);
    }
  }

  /** With the asker in the index: resumed by a reply that was there first, parked, or told that the target is gone. */
  function ParkedIndexed(s: Snap, flow: Flow, dest: u8, rid: u64, target: u64, timeout: bool): Snap
    requires flow.id in s.core.boxes
  {
    var filter := Correlation(rid, Some(target));
    var (m, r) := Park(s.core.boxes[flow.id], flow, filter);
    match r
    case Raced(raced) => ToReady(s.(core := AskRemove(WithBox(s.core, flow.id, m), flow.id)), Answered(raced, dest))
    case Installed(_) =>
      if target in s.directory then
        s.(core := PutParked(s.core, flow, filter), deadlines := Armed(s.deadlines, flow.id, dest, m, timeout))
      else
        s.(core := HandOver(PutParked(s.core, flow, filter), flow.id,
                            Wrote(flow, Some(dest), ExitHop(target, ReasonCode(Fault)))))
  }

  /** `park_ask`: into the index first. */
  function ParkedAsking(s: Snap, flow: Flow, dest: u8, rid: u64, target: u64, timeout: bool): Snap
    requires flow.id in s.core.boxes
  {
    ParkedIndexed(s.(core := AskInsert(s.core, flow.id, target, rid)), flow, dest, rid, target, timeout)
  }

  lemma InsertRemove(c: Core, held: set<FlowId>, a: FlowId, t: FlowId, rid: u64)
    requires CoreOk(c, held) && a !in c.byAsker
    ensures AskRemove(AskInsert(c, a, t, rid), a) == c
  {
    hide CoreOk;
    AskMaps(c, held);
    IndexAgrees(c, held, t);
    assert c.byAsker[a := t] - {a} == c.byAsker;
    assert c.requestIds[a := rid] - {a} == c.requestIds;
    var ws := if t in c.byTarget then c.byTarget[t] else {};
    assert ws + {a} - {a} == ws;
    WaitersBack(c.byTarget, t, a, ws);
  }

  lemma WaitersBack(byTarget: map<FlowId, set<FlowId>>, t: FlowId, a: FlowId, ws: set<FlowId>)
    requires ws == (if t in byTarget then byTarget[t] else {}) && ws + {a} - {a} == ws && (t in byTarget ==> ws != {})
    ensures WaitersWithout(byTarget[t := ws + {a}], t, a) == byTarget
  {
    if t in byTarget {
      assert byTarget[t := ws + {a}][t := ws] == byTarget;
    } else {
      assert byTarget[t := ws + {a}] - {t} == byTarget;
    }
  }

  /** Taking the index entry back undoes it whatever happened to the mailbox in between. */
  lemma RemoveAfterBox(c: Core, held: set<FlowId>, a: FlowId, t: FlowId, rid: u64, boxes: map<FlowId, Mailbox>,
                       place: map<FlowId, Place>)
    requires CoreOk(c, held) && a !in c.byAsker
    ensures AskRemove(AskInsert(c, a, t, rid).(boxes := boxes, place := place), a) == c.(boxes := boxes, place := place)
  {
    hide CoreOk, WaitersWithout;
    InsertRemove(c, held, a, t, rid);
  }

  /** A mailbox whose owner is in hand may move its counters. */
  lemma CountersMoved(c: Core, held: set<FlowId>, f: FlowId, m: Mailbox)
    requires CoreOk(c, held) && f in held && f in c.boxes
    requires m.closed == c.boxes[f].closed && m.parked == c.boxes[f].parked && m.waiting == c.boxes[f].waiting
    ensures CoreOk(WithBox(c, f, m), held)
  {
    hide QueueOk, HeldOk, BoxesOk, SendersOk, IndexOk, AskersOk;
    InHand(c, held, f);
    ClosedHasNoSenders(c, held, f);
    BoxesContents(c.place, c.boxes, f, m);
    SendersBox(c.place, c.boxes, c.waitingAt, f, m);
    AskersBox(c.place, c.boxes, c.byAsker, c.requestIds, f, m);
  }

  lemma DeadlinesCounters(deadlines: set<Deadline>, boxes: map<FlowId, Mailbox>, flow: Flow, filter: WaitFilter)
    requires DeadlinesOk(deadlines, boxes) && flow.id in boxes
    ensures DeadlinesOk(deadlines, boxes[flow.id := Vacated(Occupied(boxes[flow.id], flow, filter))])
  {
    hide Consistent;
    EpochOfNext(boxes[flow.id]);
  }

  /** Parked and taken back out at once: only the park counters have moved. */
  lemma ParkedInVain(s: Snap, flow: Flow, filter: WaitFilter, told: Flow)
    requires InStep(s, flow.id) && told.id == flow.id
    ensures flow.id in s.core.boxes
    ensures var m := Vacated(Occupied(s.core.boxes[flow.id], flow, filter));
            SnapOk(ToReady(s.(core := WithBox(s.core, flow.id, m)), told), {})
  {
    hide SnapOk, CoreOk, TablesOk;
    SnapCore(s, {flow.id});
    InHand(s.core, {flow.id}, flow.id);
    var m := Vacated(Occupied(s.core.boxes[flow.id], flow, filter));
    CountersMoved(s.core, {flow.id}, flow.id, m);
    SnapDeadlines(s, {flow.id});
    DeadlinesCounters(s.deadlines, s.core.boxes, flow, filter);
    SnapMoved(s, s.(core := WithBox(s.core, flow.id, m)), {flow.id}, {flow.id});
    ToReadyOk(s.(core := WithBox(s.core, flow.id, m)), told);
  }

  lemma TwiceUpdated<K, V>(m: map<K, V>, k: K, v: V, w: V)
    ensures m[k := v][k := w] == m[k := w]
  {
  }

  /** A reply that was there first, or a target that is gone: the index is as it was before. */
  lemma AskingMeans(s: Snap, flow: Flow, dest: u8, rid: u64, target: u64, timeout: bool)
    requires InStep(s, flow.id)
    ensures flow.id in s.core.boxes
    ensures var filter := Correlation(rid, Some(target));
            var (m, r) := Park(s.core.boxes[flow.id], flow, filter);
            var t := ParkedAsking(s, flow, dest, rid, target, timeout);
            && (r.Raced? ==> t == ToReady(s.(core := WithBox(s.core, flow.id, m)), Answered(r.flow, dest)))
            && (r.Installed? && target !in s.directory ==>
                  t == ToReady(s.(core := WithBox(s.core, flow.id, Vacated(m))),
                               Wrote(flow, Some(dest), ExitHop(target, ReasonCode(Fault)))))
  {
    hide SnapOk, CoreOk, TablesOk, TakeFrom, AskRemove, Answered, Armed, HandOver, PutParked, PutReady, Vacated;
    SnapCore(s, {flow.id});
    InHand(s.core, {flow.id}, flow.id);
    var f, c, filter := flow.id, s.core, Correlation(rid, Some(target));
    var (m, r) := Park(c.boxes[f], flow, filter);
    AskedRaced(c, f, target, rid, m);
    if r.Installed? {
      AskedInVain(c, flow, target, rid, m, Wrote(flow, Some(dest), ExitHop(target, ReasonCode(Fault))));
    }
  }

  lemma AskedRaced(c: Core, f: FlowId, target: FlowId, rid: u64, m: Mailbox)
    requires CoreOk(c, {f}) && f !in c.byAsker && f in c.boxes
    ensures AskRemove(WithBox(AskInsert(c, f, target, rid), f, m), f) == WithBox(c, f, m)
  {
    hide CoreOk, AskRemove;
    RemoveAfterBox(c, {f}, f, target, rid, c.boxes[f := m], c.place);
  }

  lemma AskedInVain(c: Core, flow: Flow, target: u64, rid: u64, m: Mailbox, told: Flow)
    requires CoreOk(c, {flow.id}) && flow.id !in c.byAsker && flow.id in c.boxes && told.id == flow.id
    requires m == Occupied(c.boxes[flow.id], flow, Correlation(rid, Some(target)))
    ensures var p := PutParked(AskInsert(c, flow.id, target, rid), flow, Correlation(rid, Some(target)));
            HandOver(p, flow.id, told) == PutReady(WithBox(c, flow.id, Vacated(m)), told)
  {
    hide CoreOk, AskRemove, Occupied, Vacated;
    var f := flow.id;
    var p := PutParked(AskInsert(c, f, target, rid), flow, Correlation(rid, Some(target)));
    RemoveAfterBox(c, {f}, f, target, rid, p.boxes[f := Vacated(m)], p.place[f := Held]);
    TwiceUpdated(c.boxes, f, m, Vacated(m));
    assert c.place[f := Parked][f := Held][f := Ready] == c.place[f := Ready];
  }

  lemma ParkedAskingOk(s: Snap, flow: Flow, dest: u8, rid: u64, target: u64, timeout: bool)
    requires InStep(s, flow.id) && flow.lastDest == Some(dest)
    ensures SnapOk(ParkedAsking(s, flow, dest, rid, target, timeout), {})
  {
    hide SnapOk, CoreOk, TablesOk, TakeFrom, Armed, AskRemove, HandOver, ToReady;
    AskingMeans(s, flow, dest, rid, target, timeout);
    var filter := Correlation(rid, Some(target));
    var (m, r) := Park(s.core.boxes[flow.id], flow, filter);
    if r.Raced? {
      BoxedInStep(s, flow.id, m);
      ToReadyOk(s.(core := WithBox(s.core, flow.id, m)), Answered(r.flow, dest));
    } else if target !in s.directory {
      ParkedInVain(s, flow, filter, Wrote(flow, Some(dest), ExitHop(target, ReasonCode(Fault))));
    } else {
      ParkMissesNothing(s.core.boxes[flow.id], flow, filter);
      AskingParks(s, flow, dest, rid, target, timeout);
    }
  }

  lemma AskingParks(s: Snap, flow: Flow, dest: u8, rid: u64, target: u64, timeout: bool)
    requires InStep(s, flow.id) && flow.lastDest == Some(dest) && target in s.directory && flow.id in s.core.boxes
    requires NothingMissed(Occupied(s.core.boxes[flow.id], flow, Correlation(rid, Some(target))))
    ensures var filter := Correlation(rid, Some(target));
            var m := Occupied(s.core.boxes[flow.id], flow, filter);
            SnapOk(s.(core := PutParked(AskInsert(s.core, flow.id, target, rid), flow, filter),
                      deadlines := Armed(s.deadlines, flow.id, dest, m, timeout)), {})
  {
    hide SnapOk, CoreOk, TablesOk, Armed, NothingMissed;
    SnapCore(s, {flow.id});
    InHand(s.core, {flow.id}, flow.id);
    InDirectory(s, {flow.id}, target);
    var filter := Correlation(rid, Some(target));
    AskInsertOk(s.core, {flow.id}, flow.id, target, rid);
    PutAskingOk(AskInsert(s.core, flow.id, target, rid), {flow.id}, flow, target, rid);
    ParkedSnap(s, PutParked(AskInsert(s.core, flow.id, target, rid), flow, filter), flow, dest, filter, timeout);
  }

  /** A hop left over from a lost race is written before the flow runs. */
  function Refreshed(flow: Flow): Flow {
    if flow.pendingMessage.None? then flow
    else Wrote(flow.(pendingMessage := None), flow.lastDest, flow.pendingMessage.value)
  }

  lemma RefreshedIs(flow: Flow)
    ensures Refreshed(flow).id == flow.id
  {
  }

  // ----- waiting to send -----

  lemma WaitersJoin(deadlines: set<Deadline>, boxes: map<FlowId, Mailbox>, t: FlowId, w: Waiting)
    requires DeadlinesOk(deadlines, boxes) && t in boxes && Consistent(w.flow)
    ensures DeadlinesOk(deadlines, boxes[t := boxes[t].(waiting := boxes[t].waiting + [w])])
  {
    hide Consistent;
  }

  lemma WaitingOk(s: Snap, flow: Flow, target: FlowId, hop: Value)
    requires InStep(s, flow.id) && Consistent(flow) && target in s.directory
    ensures target in s.core.boxes && !s.core.boxes[target].closed
            && SnapOk(s.(core := PutWaiting(s.core, flow, target, hop)), {})
  {
    hide SnapOk, CoreOk, TablesOk, Consistent;
    SnapCore(s, {flow.id});
    LiveBox(s, {flow.id}, target);
    InHand(s.core, {flow.id}, flow.id);
    OpenTarget(s.core, flow.id, target);
    PutWaitingOk(s.core, {flow.id}, flow, target, hop);
    assert {flow.id} - {flow.id} == {};
    SnapDeadlines(s, {flow.id});
    WaitersJoin(s.deadlines, s.core.boxes, target, Waiting(flow, hop));
    SnapMoved(s, s.(core := PutWaiting(s.core, flow, target, hop)), {flow.id}, {});
  }

  lemma OpenTarget(c: Core, f: FlowId, target: FlowId)
    requires CoreOk(c, {f}) && InOpenHand(c, {f}, f) && target in c.place
    ensures target in c.boxes && !c.boxes[target].closed
  {
    hide CoreOk;
    OpenBox(c, {f}, target);
    NotHeld(c, {f}, target);
  }

  /** The oldest waiting sender whose hop is admitted, in hand. */
  function AdmitOne(s: Snap, f: FlowId, cfg: Config): (Snap, Option<Flow>)
    requires f in s.core.boxes
  {
    var (m, o) := AdmitSender(s.core.boxes[f], cfg);
    if o.None? then (s, None)
    else
      (s.(core := s.core.(boxes := s.core.boxes[f := m], waitingAt := s.core.waitingAt - {o.value.id},
                          place := s.core.place[o.value.id := Held])), o)
  }

  lemma AdmitIsTake(m: Mailbox, cfg: Config)
    requires AdmitSender(m, cfg).1.Some?
    ensures var (m', o) := AdmitSender(m, cfg);
            var (k, p) := TakeSender(m, o.value.id);
            p == o && m' == k.(queue := m'.queue) && WaiterIndex(m.waiting, o.value.id) == 0
            && m.waiting != [] && m.waiting[0].flow == o.value && Waiting(o.value, m.waiting[0].message) in m.waiting
  {
    hide Enqueue;
    var ws := m.waiting;
    assert ws[..0] + ws[1..] == ws[1..];
    assert ws[0] == Waiting(ws[0].flow, ws[0].message);
  }

  lemma FirstWaits(c: Core, held: set<FlowId>, f: FlowId, i: nat)
    requires CoreOk(c, held) && f in c.boxes && i < |c.boxes[f].waiting|
    ensures var s := c.boxes[f].waiting[i].flow.id;
            && s in c.waitingAt && c.waitingAt[s] == f && s in c.place && c.place[s] == WaitingIn(f) && s !in held
               && s !in c.byAsker
            && s in c.boxes && !c.boxes[s].closed
  {
    hide CoreOk, WaitIds;
    InWaitIds(c.boxes[f].waiting, i);
    WaitsThere(c, held, f, c.boxes[f].waiting[i].flow.id);
  }

  lemma InWaitIds(ws: seq<Waiting>, i: nat)
    requires i < |ws|
    ensures ws[i].flow.id in WaitIds(ws)
  {
  }

  lemma ListedThere(c: Core, f: FlowId, s: FlowId)
    requires SendersOk(c.place, c.boxes, c.waitingAt) && f in c.boxes && s in WaitIds(c.boxes[f].waiting)
    ensures s in c.waitingAt && c.waitingAt[s] == f && s in c.place && c.place[s] == WaitingIn(f)
  {
    hide WaitIds, NoTwice;
  }

  lemma WaitsThere(c: Core, held: set<FlowId>, f: FlowId, s: FlowId)
    requires CoreOk(c, held) && f in c.boxes && s in WaitIds(c.boxes[f].waiting)
    ensures s in c.waitingAt && c.waitingAt[s] == f && s in c.place && c.place[s] == WaitingIn(f) && s !in held
            && s !in c.byAsker
    ensures s in c.boxes && !c.boxes[s].closed
  {
    hide QueueOk, IndexOk, SendersOk, WaitIds, Asks, AskFilter;
    ListedThere(c, f, s);
  }

  lemma AdmitCore(c: Core, f: FlowId, cfg: Config)
    requires CoreOk(c, {}) && f in c.boxes && c.boxes[f].parked.None? && AdmitSender(c.boxes[f], cfg).1.Some?
    ensures var (m, o) := AdmitSender(c.boxes[f], cfg);
            var d := c.(boxes := c.boxes[f := m], waitingAt := c.waitingAt - {o.value.id},
                        place := c.place[o.value.id := Held]);
            && CoreOk(d, {o.value.id}) && Tame(c, d) && SamePlaces(c, d) && d.byAsker == c.byAsker
            && o.value.id in d.boxes && !d.boxes[o.value.id].closed && o.value.id !in d.byAsker
  {
    hide CoreOk, Tame, TakeSender, AdmitSender;
    var (m, o) := AdmitSender(c.boxes[f], cfg);
    var s := o.value.id;
    AdmitIsTake(c.boxes[f], cfg);
    FirstWaits(c, {}, f, 0);
    HoldWaitingOk(c, {}, s, f);
    TameHoldWaiting(c, {}, s, f);
    assert {} + {s} == {s};
    var h := HoldWaiting(c, s, f);
    SenderStaysOpen(c.boxes[f], cfg);
    WithBoxOk(h, {s}, f, m);
    TameWithBox(h, {s}, f, m);
    TameTrans(c, h, WithBox(h, f, m));
    TwiceUpdated(c.boxes, f, TakeSender(c.boxes[f], s).0, m);
  }

  lemma SenderStaysOpen(m: Mailbox, cfg: Config)
    ensures AdmitSender(m, cfg).0.closed == m.closed && AdmitSender(m, cfg).0.parked == m.parked
  {
    hide Enqueue;
  }

  lemma AdmitOneOk(s: Snap, f: FlowId, cfg: Config)
    requires SnapOk(s, {}) && f in s.core.boxes && s.core.boxes[f].parked.None?
    ensures var (t, o) := AdmitOne(s, f, cfg);
            if o.Some? then InStep(t, o.value.id) && Consistent(o.value) else t == s
  {
    hide SnapOk, CoreOk, TablesOk, Tame, AdmitSender, Consistent, SamePlaces;
    SnapCore(s, {});
    var (t, o) := AdmitOne(s, f, cfg);
    if o.Some? {
      AdmitCore(s.core, f, cfg);
      SnapStays(s, t, {}, {o.value.id});
      AdmitIsTake(s.core.boxes[f], cfg);
      SnapDeadlines(s, {});
      WaiterConsistent(s.deadlines, s.core.boxes, f, Waiting(o.value, s.core.boxes[f].waiting[0].message));
    }
  }

  lemma WaiterConsistent(deadlines: set<Deadline>, boxes: map<FlowId, Mailbox>, f: FlowId, w: Waiting)
    requires DeadlinesOk(deadlines, boxes) && f in boxes && w in boxes[f].waiting
    ensures Consistent(w.flow)
  {
    hide Consistent, NothingMissed;
  }

  /** `admit_waiting_on`: the admitted sender goes on, or parks for the answer to its request. */
  ghost function AdmittedOn(s: Snap, f: FlowId, cfg: Config): Snap
    requires SnapOk(s, {}) && f in s.core.boxes && s.core.boxes[f].parked.None?
  {
    hide SnapOk, Enqueue, ToReady, ParkedAsking;
    AdmitOneOk(s, f, cfg);
    var (t, o) := AdmitOne(s, f, cfg);
    if o.None? then s
    else Continued(t, o.value)
  }

  /** What an admitted sender does next. */
  function Continued(s: Snap, sender: Flow): Snap
    requires sender.id in s.core.boxes
  {
    var flow := sender.(pendingSend := None);
    if sender.pendingSend.Some? && sender.pendingSend.value.AskReply? then
      var p := sender.pendingSend.value;
      ParkedAsking(s, flow, p.dest, p.requestId, p.target, p.timeout.Some?)
    else ToReady(s, flow)
  }

  lemma AdmittedOnOk(s: Snap, f: FlowId, cfg: Config)
    requires SnapOk(s, {}) && f in s.core.boxes && s.core.boxes[f].parked.None?
    ensures SnapOk(AdmittedOn(s, f, cfg), {})
  {
    hide SnapOk, InStep, AdmitOne, ToReady, ParkedAsking;
    AdmitOneOk(s, f, cfg);
    var (t, o) := AdmitOne(s, f, cfg);
    if o.Some? {
      ContinuedOk(t, o.value);
    }
  }

  lemma ContinuedOk(s: Snap, sender: Flow)
    requires InStep(s, sender.id) && Consistent(sender)
    ensures SnapOk(Continued(s, sender), {})
  {
    hide SnapOk, ToReady, ParkedAsking;
    var flow := sender.(pendingSend := None);
    if sender.pendingSend.Some? && sender.pendingSend.value.AskReply? {
      var p := sender.pendingSend.value;
      ParkedAskingOk(s, flow, p.dest, p.requestId, p.target, p.timeout.Some?);
    } else {
      ToReadyOk(s, flow);
    }
  }

  // ----- deadlines -----

  /** `fire` on a receive timeout: the flow resumes with `Unit` if the epoch is that of its park. */
  function TimedOut(s: Snap, d: Deadline): (Snap, bool)
    requires d.pid in s.core.boxes
  {
    var t := s.(deadlines := s.deadlines - {d});
    var (m, o) := TakeParkedAt(s.core.boxes[d.pid], d.epoch);
    if o.None? then (t, false)
    else (t.(core := HandOver(s.core, d.pid, Wrote(o.value, Some(d.dest), Unit))), true)
  }

  lemma FewerDeadlines(s: Snap, held: set<FlowId>, d: Deadline)
    requires SnapOk(s, held)
    ensures SnapOk(s.(deadlines := s.deadlines - {d}), held)
    ensures d in s.deadlines ==> d.pid in s.core.boxes
  {
    hide CoreOk, Listed, SignalsOk, MonitorsOk, DownsOk, LinksOk, NamesOk, IdsOk, Capabilities.Sane, Consistent;
  }

  lemma TimedOutOk(s: Snap, d: Deadline)
    requires SnapOk(s, {}) && d in s.deadlines
    ensures d.pid in s.core.boxes && SnapOk(TimedOut(s, d).0, {})
    ensures s.core.boxes[d.pid].parked.Some? ==> s.core.boxes[d.pid].parked.value.id == d.pid
  {
    hide SnapOk, CoreOk, TablesOk, HandOver;
    FewerDeadlines(s, {}, d);
    SnapCore(s, {});
    ParkedAreParked(s.core, {});
    var m := s.core.boxes[d.pid];
    if m.parked.Some? {
      OpenBox(s.core, {}, d.pid);
      if m.epoch == d.epoch {
        HandedOk(s.(deadlines := s.deadlines - {d}), {}, d.pid, Wrote(m.parked.value, Some(d.dest), Unit));
      }
    }
  }

  /**
   Stale deadlines are inert: while a mailbox has seen fewer than 2^64 parks, a deadline
   resumes its flow exactly if the very park that armed it is still current, and the
   register it writes is the one that park waits in.
   */
  lemma OnlyTheCurrentParkTimesOut(s: Snap, d: Deadline)
    requires SnapOk(s, {}) && d in s.deadlines
    ensures d.pid in s.core.boxes
    ensures var m := s.core.boxes[d.pid];
            && (m.parks < EPOCHS ==> (TimedOut(s, d).1 <==> m.parked.Some? && m.parks == d.park))
            && (m.parked.Some? && m.parks == d.park ==> TimedOut(s, d).1 && m.parked.value.lastDest == Some(d.dest))
            && (!TimedOut(s, d).1 ==> TimedOut(s, d).0 == s.(deadlines := s.deadlines - {d}))
  {
    hide SnapOk, HandOver, Consistent;
    SnapDeadlines(s, {});
    var m := s.core.boxes[d.pid];
    EpochIsPark(m.parks, d.park);
  }

  lemma EpochIsPark(parks: nat, park: nat)
    requires park <= parks
    ensures parks < EPOCHS ==> (parks % EPOCHS == park % EPOCHS <==> parks == park)
  {
  }

  // ----- births -----

  function NewFlow(id: FlowId): Flow {
    Flow(id, None, None, None, [])
  }

  function Spawned(s: Snap): Snap {
    s.(core := Admit(s.core, NewFlow(s.nextFlow)), directory := s.directory + {s.nextFlow},
       quotas := s.quotas + {s.nextFlow},
       caps := Capabilities.Bind(s.caps, s.nextFlow), nextFlow := s.nextFlow + 1)
  }

  lemma NamesGrow(byName: map<Name, NameEntry>, byFlow: map<FlowId, seq<Name>>, directory: set<FlowId>, id: FlowId)
    requires NamesOk(byName, byFlow, directory)
    ensures NamesOk(byName, byFlow, directory + {id})
  {
  }

  lemma MonitorsGrow(monitors: map<nat, Monitor>, next: nat, directory: set<FlowId>, id: FlowId)
    requires MonitorsOk(monitors, next, directory)
    ensures MonitorsOk(monitors, next, directory + {id})
  {
  }

  lemma BoxesGrow(deadlines: set<Deadline>, boxes: map<FlowId, Mailbox>, next: nat)
    requires DeadlinesOk(deadlines, boxes) && IdsOk(boxes, next) && next < ID_LIMIT
    ensures next !in boxes && IdsOk(boxes[next := EmptyMailbox()], next + 1)
    ensures DeadlinesOk(deadlines, boxes[next := EmptyMailbox()])
  {
    hide Consistent;
  }

  lemma ListedGrows(directory: set<FlowId>, c: Core, flow: Flow)
    requires Listed(directory, c.place)
    ensures Listed(directory + {flow.id}, Admit(c, flow).place)
  {
  }

  lemma CoveredNew(c: Core, next: nat)
    requires CoreOk(c, {}) && next !in c.boxes
    ensures next !in c.place
  {
    hide CoreOk;
    CoreCovered(c, {});
  }

  lemma SpawnedTables(s: Snap)
    requires TablesOk(s) && s.nextFlow < ID_LIMIT && s.nextFlow !in s.core.place
    ensures TablesOk(Spawned(s)) && s.nextFlow !in s.core.boxes
  {
    hide Listed, MonitorsOk, DownsOk, LinksOk, NamesOk, IdsOk, DeadlinesOk, Capabilities.Sane, Capabilities.Bind,
         NewFlow;
    BoxesGrow(s.deadlines, s.core.boxes, s.nextFlow);
    NamesGrow(s.byName, s.byFlow, s.directory, s.nextFlow);
    MonitorsGrow(s.monitors, s.nextMonitor, s.directory, s.nextFlow);
    Capabilities.BindSane(s.caps, s.nextFlow);
    assert NewFlow(s.nextFlow).id == s.nextFlow by { NewFlowIs(s.nextFlow); }
    ListedGrows(s.directory, s.core, NewFlow(s.nextFlow));
  }

  lemma NewFlowIs(id: FlowId)
    ensures NewFlow(id).id == id
  {
  }

  lemma SpawnedOk(s: Snap)
    requires SnapOk(s, {}) && s.nextFlow < ID_LIMIT
    ensures SnapOk(Spawned(s), {})
    ensures s.nextFlow !in s.directory && s.nextFlow !in s.core.boxes && s.nextFlow in Spawned(s).core.ready
  {
    hide SnapOk, CoreOk, TablesOk;
    SnapCore(s, {});
    NextIdIsNew(s);
    CoveredNew(s.core, s.nextFlow);
    SpawnedTables(s);
    AdmitOk(s.core, {}, NewFlow(s.nextFlow));
    MakeSnap(Spawned(s), {});
    InDirectory(s, {}, s.nextFlow);
  }

  lemma NextIdIsNew(s: Snap)
    requires TablesOk(s)
    ensures s.nextFlow !in s.core.boxes
  {
    hide Listed, SignalsOk, MonitorsOk, DownsOk, LinksOk, NamesOk, DeadlinesOk, Capabilities.Sane;
  }

  lemma MakeSnap(s: Snap, held: set<FlowId>)
    requires CoreOk(s.core, held) && TablesOk(s)
    ensures SnapOk(s, held)
  {
    hide CoreOk, TablesOk;
  }

  // ----- relations -----

  datatype RelationError =
    | SelfRelation
    | NoSuchFlow
    | AlreadyLinked
    | NotOwner
    | InvalidMonitor
    | InvalidLink
    | EmptyName
    | AlreadyRegistered

  function Monitored(s: Snap, owner: FlowId, target: FlowId): Snap {
    s.(monitors := s.monitors[s.nextMonitor := Monitor(owner, target)], nextMonitor := s.nextMonitor + 1)
  }

  lemma MonitorsJoin(s: Snap, owner: FlowId, target: FlowId)
    requires MonitorsOk(s.monitors, s.nextMonitor, s.directory) && DownsOk(s.downs, s.monitors, s.nextMonitor)
    requires owner in s.directory && owner != target && s.nextMonitor < ID_LIMIT
    ensures var t := Monitored(s, owner, target);
            MonitorsOk(t.monitors, t.nextMonitor, t.directory) && DownsOk(t.downs, t.monitors, t.nextMonitor)
  {
  }

  lemma MonitoredOk(s: Snap, owner: FlowId, target: FlowId)
    requires SnapOk(s, {}) && owner in s.directory && owner != target && s.nextMonitor < ID_LIMIT
    ensures SnapOk(Monitored(s, owner, target), {}) && s.nextMonitor !in s.monitors
  {
    hide CoreOk, Listed, SignalsOk, DownsOk, LinksOk, NamesOk, IdsOk, DeadlinesOk, Capabilities.Sane;
    MonitorsJoin(s, owner, target);
  }

  function Demonitored(s: Snap, owner: FlowId, r: nat): (Snap, Result<(), RelationError>) {
    if r !in s.monitors then (s, Err(InvalidMonitor))
    else if s.monitors[r].owner != owner then (s, Err(NotOwner))
    else (s.(monitors := s.monitors - {r}), Ok(()))
  }

  lemma DemonitoredOk(s: Snap, owner: FlowId, r: nat)
    requires SnapOk(s, {})
    ensures SnapOk(Demonitored(s, owner, r).0, {})
  {
    hide CoreOk, Listed, SignalsOk, LinksOk, NamesOk, IdsOk, DeadlinesOk, Capabilities.Sane;
  }

  ghost function LinkedNow(s: Snap, a: FlowId, b: FlowId): (Snap, Result<nat, RelationError>) {
    if a == b then (s, Err(SelfRelation))
    else if Linked(s.links, a, b) then (s, Err(AlreadyLinked))
    else (s.(links := s.links[s.nextLink := Pair(a, b)], nextLink := s.nextLink + 1), Ok(s.nextLink))
  }

  lemma LinksJoin(links: map<nat, Pair>, next: nat, a: FlowId, b: FlowId)
    requires LinksOk(links, next) && a != b && !Linked(links, a, b)
    ensures LinksOk(links[next := Pair(a, b)], next + 1)
  {
  }

  lemma LinkedNowOk(s: Snap, a: FlowId, b: FlowId)
    requires SnapOk(s, {})
    ensures SnapOk(LinkedNow(s, a, b).0, {})
    ensures LinkedNow(s, a, b).1.Ok? ==>
              Linked(LinkedNow(s, a, b).0.links, a, b) && Linked(LinkedNow(s, a, b).0.links, b, a)
  {
    hide CoreOk, Listed, SignalsOk, MonitorsOk, DownsOk, LinksOk, NamesOk, IdsOk, DeadlinesOk, Capabilities.Sane;
    var t := LinkedNow(s, a, b).0;
    if LinkedNow(s, a, b).1.Ok? {
      LinksJoin(s.links, s.nextLink, a, b);
      assert s.nextLink in t.links && Joins(t.links[s.nextLink], a, b) && Joins(t.links[s.nextLink], b, a);
    }
  }

  function Unlinked(s: Snap, owner: FlowId, l: nat): (Snap, Result<(), RelationError>) {
    if l !in s.links then (s, Err(InvalidLink))
    else if !Touches(s.links[l], owner) then (s, Err(NotOwner))
    else (s.(links := s.links - {l}), Ok(()))
  }

  lemma UnlinkedOk(s: Snap, owner: FlowId, l: nat)
    requires SnapOk(s, {})
    ensures SnapOk(Unlinked(s, owner, l).0, {})
    ensures Unlinked(s, owner, l).1.Ok? ==>
              !Linked(Unlinked(s, owner, l).0.links, s.links[l].a, s.links[l].b)
  {
    hide CoreOk, Listed, SignalsOk, MonitorsOk, DownsOk, NamesOk, IdsOk, DeadlinesOk, Capabilities.Sane;
    if Unlinked(s, owner, l).1.Ok? {
      TheOnlyLink(s.links, s.nextLink, l);
    }
  }

  lemma TheOnlyLink(links: map<nat, Pair>, next: nat, l: nat)
    requires LinksOk(links, next) && l in links
    ensures !Linked(links - {l}, links[l].a, links[l].b) && LinksOk(links - {l}, next)
  {
  }

  // ----- names -----

  function Named(s: Snap, name: Name, cap: u128, flow: FlowId): (Snap, Result<(), RelationError>) {
    if name == [] then (s, Err(EmptyName))
    else if name in s.byName then (s, Err(AlreadyRegistered))
    else
      (s.(byName := s.byName[name := NameEntry(cap, flow)],
          byFlow := s.byFlow[flow := (if flow in s.byFlow then s.byFlow[flow] else []) + [name]]), Ok(()))
  }

  lemma NamesJoin(byName: map<Name, NameEntry>, byFlow: map<FlowId, seq<Name>>, directory: set<FlowId>, name: Name,
                  cap: u128, flow: FlowId)
    requires NamesOk(byName, byFlow, directory) && name !in byName && flow in directory
    ensures NamesOk(byName[name := NameEntry(cap, flow)],
                    byFlow[flow := (if flow in byFlow then byFlow[flow] else []) + [name]], directory)
  {
  }

  lemma NamedOk(s: Snap, name: Name, cap: u128, flow: FlowId)
    requires SnapOk(s, {}) && flow in s.directory
    ensures SnapOk(Named(s, name, cap, flow).0, {})
  {
    hide CoreOk, Listed, SignalsOk, MonitorsOk, DownsOk, LinksOk, NamesOk, IdsOk, DeadlinesOk, Capabilities.Sane;
    if Named(s, name, cap, flow).1.Ok? {
      NamesJoin(s.byName, s.byFlow, s.directory, name, cap, flow);
    }
  }

  function NamesLeft(names: seq<Name>, name: Name): (r: seq<Name>)
    ensures forall n :: n in r <==> n in names && n != name
  {
    if names == [] then [] else (if names[0] == name then [] else [names[0]]) + NamesLeft(names[1..], name)
  }

  function Unnamed(s: Snap, name: Name): (Snap, bool) {
    if name !in s.byName then (s, false)
    else
      var f := s.byName[name].flow;
      var left := if f in s.byFlow then NamesLeft(s.byFlow[f], name) else [];
      (s.(byName := s.byName - {name}, byFlow := if left == [] then s.byFlow - {f} else s.byFlow[f := left]), true)
  }

  lemma NamesLeave(byName: map<Name, NameEntry>, byFlow: map<FlowId, seq<Name>>, directory: set<FlowId>, name: Name)
    requires NamesOk(byName, byFlow, directory) && name in byName
    ensures var f := byName[name].flow;
            && f in byFlow
            && var left := NamesLeft(byFlow[f], name);
               NamesOk(byName - {name}, if left == [] then byFlow - {f} else byFlow[f := left], directory)
  {
    hide NamesLeft;
    var f := byName[name].flow;
    var left := NamesLeft(byFlow[f], name);
    if left == [] {
      LastNameLeaves(byName, byFlow, directory, name);
    } else {
      OneNameLeaves(byName, byFlow, directory, name, left);
    }
  }

  lemma LastNameLeaves(byName: map<Name, NameEntry>, byFlow: map<FlowId, seq<Name>>, directory: set<FlowId>, name: Name)
    requires NamesOk(byName, byFlow, directory) && name in byName && byName[name].flow in byFlow
    requires NamesLeft(byFlow[byName[name].flow], name) == []
    ensures NamesOk(byName - {name}, byFlow - {byName[name].flow}, directory)
  {
    hide NamesLeft;
    var f := byName[name].flow;
    forall n | n in byName && n != name ensures byName[n].flow != f {
      assert n in NamesLeft(byFlow[f], name) <==> n in byFlow[f] && n != name;
    }
  }

  lemma OneNameLeaves(byName: map<Name, NameEntry>, byFlow: map<FlowId, seq<Name>>, directory: set<FlowId>,
                      name: Name, left: seq<Name>)
    requires NamesOk(byName, byFlow, directory) && name in byName && byName[name].flow in byFlow
    requires left != [] && forall n :: n in left <==> n in byFlow[byName[name].flow] && n != name
    ensures NamesOk(byName - {name}, byFlow[byName[name].flow := left], directory)
  {
  }

  lemma UnnamedOk(s: Snap, name: Name)
    requires SnapOk(s, {})
    ensures SnapOk(Unnamed(s, name).0, {})
  {
    hide CoreOk, Listed, SignalsOk, MonitorsOk, DownsOk, LinksOk, NamesOk, IdsOk, DeadlinesOk, Capabilities.Sane,
         NamesLeft;
    if name in s.byName {
      NamesLeave(s.byName, s.byFlow, s.directory, name);
    }
  }

  // ----- capabilities -----

  lemma GrantedOk(s: Snap, op: Capabilities.Op)
    requires SnapOk(s, {}) && Capabilities.Enabled(s.caps, op)
    ensures SnapOk(s.(caps := Capabilities.Apply(s.caps, op)), {})
  {
    hide CoreOk, Listed, SignalsOk, MonitorsOk, DownsOk, LinksOk, NamesOk, IdsOk, DeadlinesOk, Capabilities.Sane,
         Capabilities.Apply,
         Capabilities.Enabled;
    Capabilities.ApplySane(s.caps, op);
  }

  // ----- what the invariant says -----

  function One(b: bool): nat {
    if b then 1 else 0
  }

  /** In how many places a flow is found. */
  ghost function Places(c: Core, f: FlowId): nat {
    One(f in c.ready) + One(f in c.running) + One(f in c.sleeping)
    + One(f in c.boxes && c.boxes[f].parked.Some?) + One(exists t :: t in c.boxes && f in WaitIds(c.boxes[t].waiting))
  }

  /** Between steps every unfinished flow is in exactly one place, and a finished one in none. */
  lemma EveryFlowIsInOnePlace(s: Snap, f: FlowId)
    requires SnapOk(s, {})
    ensures Places(s.core, f) == One(f in s.directory)
    ensures forall b :: b in s.core.boxes && s.core.boxes[b].parked.Some? ==> s.core.boxes[b].parked.value.id == b
    ensures forall t, u ::
              && t in s.core.boxes && f in WaitIds(s.core.boxes[t].waiting)
              && u in s.core.boxes && f in WaitIds(s.core.boxes[u].waiting) ==>
                t == u
    ensures forall t :: t in s.core.boxes ==> NoTwice(s.core.boxes[t].waiting)
  {
    hide TablesOk, CoreOk, WaitIds, NoTwice;
    SnapCore(s, {});
    InDirectory(s, {}, f);
    NotHeld(s.core, {}, f);
    FoundInQueues(s.core, {}, f);
    FoundInBoxes(s.core, {}, f);
  }

  lemma FoundInQueues(c: Core, held: set<FlowId>, f: FlowId)
    requires CoreOk(c, held)
    ensures f in c.ready <==> f in c.place && c.place[f] == Ready
    ensures f in c.running <==> f in c.place && c.place[f] == Running
    ensures f in c.sleeping <==> f in c.place && c.place[f] == Sleeping
  {
    hide HeldOk, BoxesOk, SendersOk, IndexOk, AskersOk;
  }

  lemma FoundInBoxes(c: Core, held: set<FlowId>, f: FlowId)
    requires CoreOk(c, held)
    ensures f in c.boxes && c.boxes[f].parked.Some? <==> f in c.place && c.place[f] == Parked
    ensures forall t :: t in c.boxes ==>
              (f in WaitIds(c.boxes[t].waiting) <==> f in c.place && c.place[f] == WaitingIn(t))
    ensures f in c.place && c.place[f].WaitingIn? ==> c.place[f].target in c.boxes
    ensures forall t :: t in c.boxes ==> NoTwice(c.boxes[t].waiting)
    ensures forall b :: b in c.boxes && c.boxes[b].parked.Some? ==> c.boxes[b].parked.value.id == b
  {
    hide QueueOk, HeldOk, IndexOk, AskersOk, WaitIds, NoTwice;
  }

  /** No flow sleeps on a hop it waits for: nothing queued in its inbox matches the filter it is parked under. */
  lemma NoLostWakeUp(s: Snap, f: FlowId, i: nat)
    requires SnapOk(s, {}) && f in s.core.boxes && s.core.boxes[f].parked.Some? && i < |s.core.boxes[f].queue.items|
    ensures !Matches(s.core.boxes[f].filter, s.core.boxes[f].queue.items[i])
  {
    hide SnapOk, Matches, Consistent;
    SnapDeadlines(s, {});
    assert NothingMissed(s.core.boxes[f]);
  }

  /** The waiting index names exactly the queue a sender is in. */
  lemma WaitingIndexAgrees(s: Snap, f: FlowId, t: FlowId)
    requires SnapOk(s, {})
    ensures f in s.core.waitingAt && s.core.waitingAt[f] == t
            <==> t in s.core.boxes && f in WaitIds(s.core.boxes[t].waiting)
    ensures f in s.core.waitingAt ==> f in s.directory && s.core.waitingAt[f] in s.directory
  {
    hide TablesOk, QueueOk, HeldOk, IndexOk, AskersOk, WaitIds, NoTwice;
    InDirectory(s, {}, f);
    if f in s.core.waitingAt {
      InDirectory(s, {}, s.core.waitingAt[f]);
    }
  }

  /**
   A flow is in the ask index exactly when it is parked under the filter of an `Ask`; the
   three maps agree with each other and with that filter, and the flow asked is live.
   */
  lemma AskIndexAgrees(s: Snap, a: FlowId)
    requires SnapOk(s, {})
    ensures a in s.core.byAsker
            <==> a in s.core.boxes && s.core.boxes[a].parked.Some? && AskFilter(s.core.boxes[a].filter)
    ensures a in s.core.byAsker <==> a in s.core.requestIds
    ensures a in s.core.byAsker ==>
              && s.core.boxes[a].filter.requestId == s.core.requestIds[a]
                 && s.core.boxes[a].filter.sender.value == s.core.byAsker[a]
              && s.core.byAsker[a] in s.directory
              && s.core.byAsker[a] in s.core.byTarget && a in s.core.byTarget[s.core.byAsker[a]]
    ensures forall t :: t in s.core.byTarget && a in s.core.byTarget[t] ==>
              a in s.core.byAsker && s.core.byAsker[a] == t
  {
    hide TablesOk, CoreOk;
    SnapCore(s, {});
    AskMaps(s.core, {});
    IndexAgreesBoth(s.core, a);
    FoundInBoxes(s.core, {}, a);
    AskersParked(s.core, a);
    if a in s.core.byAsker {
      InDirectory(s, {}, s.core.byAsker[a]);
    }
  }

  lemma IndexAgreesBoth(c: Core, a: FlowId)
    requires CoreOk(c, {})
    ensures a in c.byAsker ==> c.byAsker[a] in c.byTarget && a in c.byTarget[c.byAsker[a]] && c.byAsker[a] in c.place
    ensures forall t :: t in c.byTarget && a in c.byTarget[t] ==> a in c.byAsker && c.byAsker[a] == t
  {
    hide QueueOk, HeldOk, BoxesOk, SendersOk, Asks, AskFilter;
  }

  lemma AskersParked(c: Core, a: FlowId)
    requires CoreOk(c, {})
    ensures a in c.byAsker ==>
              a in c.place && c.place[a] == Parked && a in c.boxes && a in c.requestIds
              && AskFilter(c.boxes[a].filter) && c.boxes[a].filter.requestId == c.requestIds[a]
                 && c.boxes[a].filter.sender.value == c.byAsker[a]
    ensures a in c.place && c.place[a] == Parked && a in c.boxes && AskFilter(c.boxes[a].filter) ==> a in c.byAsker
  {
    hide QueueOk, SendersOk, IndexOk;
  }
}
