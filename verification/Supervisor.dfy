/**
 The supervisor (crates/byteflow/src/scheduler/supervisor.rs): the ordered child table,
 the restart strategies and the cascade that kills siblings and starts them again.
 */
module Supervision {
  import opened Wrappers
  import opened Values
  import opened Intensity

  type FlowId = nat

  datatype RestartPolicy = Always | OnFailure | Never
  datatype Strategy = OneForOne | OneForAll | RestForOne
  datatype Outcome = Completed | Failed

  datatype ChildSpec = ChildSpec(name: seq<u8>, function_: u32, args: seq<Value>, restart: RestartPolicy)

  /** `expected` marks an incarnation that a cascade is tearing down. */
  datatype LiveChild = LiveChild(spec: ChildSpec, expected: bool)

  datatype Table = Table(byId: map<FlowId, LiveChild>, order: seq<FlowId>)

  datatype Cascade = Cascade(waiting: set<FlowId>, specs: seq<ChildSpec>)

  /** A flow that has left the directory but whose outcome has not reached the supervisor yet is `leaving`. */
  datatype Sup = Sup(
    table: Table,
    cascade: Option<Cascade>,
    gate: Gate,
    live: set<FlowId>,
    leaving: set<FlowId>,
    events: seq<(FlowId, Outcome)>,
    nextId: FlowId)

  datatype Setup = Setup(strategy: Strategy, intensity: Config)

  // ----- the child table -----

  function Without(order: seq<FlowId>, id: FlowId): (r: seq<FlowId>)
    ensures forall x :: x in r <==> x in order && x != id
  {
    if order == [] then []
    else if order[0] == id then Without(order[1..], id)
    else [order[0]] + Without(order[1..], id)
  }

  /** Position of `id` in start order, or the length. */
  function IndexOf(order: seq<FlowId>, id: FlowId): (i: nat)
    ensures i <= |order|
    ensures i < |order| ==> order[i] == id
    ensures forall j :: 0 <= j < i ==> order[j] != id
  {
    if order == [] || order[0] == id then 0 else 1 + IndexOf(order[1..], id)
  }

  function Insert(t: Table, id: FlowId, child: LiveChild): Table {
    Table(t.byId[id := child], t.order + [id])
  }

  function Remove(t: Table, id: FlowId): Table {
    Table(t.byId - {id}, Without(t.order, id))
  }

  /** Specs of the listed children that are in the table, in that order. */
  function SpecsOf(byId: map<FlowId, LiveChild>, ids: seq<FlowId>): seq<ChildSpec> {
    if ids == [] then []
    else if ids[0] in byId then [byId[ids[0]].spec] + SpecsOf(byId, ids[1..])
    else SpecsOf(byId, ids[1..])
  }

  function Flag(byId: map<FlowId, LiveChild>, ids: seq<FlowId>): map<FlowId, LiveChild> {
    if ids == [] then byId
    else if ids[0] in byId then Flag(byId[ids[0] := byId[ids[0]].(expected := true)], ids[1..])
    else Flag(byId, ids[1..])
  }

  /** The listed children that no cascade is tearing down. */
  function Standing(byId: map<FlowId, LiveChild>, ids: seq<FlowId>): seq<FlowId> {
    if ids == [] then []
    else if ids[0] in byId && !byId[ids[0]].expected then [ids[0]] + Standing(byId, ids[1..])
    else Standing(byId, ids[1..])
  }

  predicate Unflagged(byId: map<FlowId, LiveChild>, ids: seq<FlowId>) {
    forall id :: id in ids && id in byId ==> !byId[id].expected
  }

  // ----- supervision as functions -----

  function Spawn(s: Sup, spec: ChildSpec): Sup {
    s.(table := Insert(s.table, s.nextId, LiveChild(spec, false)), live := s.live + {s.nextId}, nextId := s.nextId + 1)
  }

  function SpawnAll(s: Sup, specs: seq<ChildSpec>): Sup
    decreases |specs|
  {
    if specs == [] then s else SpawnAll(Spawn(s, specs[0]), specs[1..])
  }

  function FinishCascade(s: Sup): Sup {
    match s.cascade
    case None => s
    case Some(c) => if s.gate.exceeded then s.(cascade := None) else SpawnAll(s.(cascade := None), c.specs)
  }

  /** Specs to start again: the failed child is back in its old place. */
  function RespawnList(strategy: Strategy, failed: ChildSpec, at: nat, later: seq<ChildSpec>): seq<ChildSpec> {
    match strategy
    case OneForAll => if at <= |later| then later[..at] + [failed] + later[at..] else later + [failed]
    case RestForOne => [failed] + later
    case OneForOne => [failed]
  }

  /** `killed` are the siblings whose kill takes effect at once (they were parked); the others die later. */
  function StartCascade(s: Sup, setup: Setup, failed: ChildSpec, at: nat, later: seq<FlowId>, killed: set<FlowId>): Sup
  {
    var specs := RespawnList(setup.strategy, failed, at, SpecsOf(s.table.byId, later));
    var all := set id | id in later;
    var dead := killed * all * s.live;
    var next := s.(table := s.table.(byId := Flag(s.table.byId, later)),
                   live := s.live - dead, leaving := s.leaving + dead,
                   cascade := Some(Cascade(all * (s.live - dead), specs)));
    if all * (s.live - dead) == {} then FinishCascade(next) else next
  }

  function Progress(s: Sup, id: FlowId): Sup {
    match s.cascade
    case None => s
    case Some(c) =>
      var next := s.(cascade := Some(c.(waiting := c.waiting - {id})));
      if c.waiting - {id} == {} then FinishCascade(next) else next
  }

  predicate ShouldRestart(policy: RestartPolicy, outcome: Outcome) {
    policy.Always? || (policy.OnFailure? && outcome.Failed?)
  }

  function LaterThan(strategy: Strategy, order: seq<FlowId>, at: nat): seq<FlowId> {
    match strategy
    case OneForAll => order
    case RestForOne => if at <= |order| then order[at..] else []
    case OneForOne => []
  }

  function HandleExit(s: Sup, setup: Setup, id: FlowId, outcome: Outcome, now: nat, killed: set<FlowId>): Sup {
    if id !in s.table.byId then s
    else
      var child := s.table.byId[id];
      var at := IndexOf(s.table.order, id);
      var removed := s.(table := Remove(s.table, id));
      if child.expected then Progress(removed, id)
      else if !ShouldRestart(child.spec.restart, outcome) then removed
      else
        var (gate, ok) := Ask(s.gate, setup.intensity, now);
        var asked := removed.(gate := gate);
        if !ok then asked
        else if setup.strategy.OneForOne? then Spawn(asked, child.spec)
        else StartCascade(asked, setup, child.spec, at, LaterThan(setup.strategy, removed.table.order, at), killed)
  }

  datatype Step =
    | Dies(id: FlowId)
    | Reports(id: FlowId, outcome: Outcome)
    | Handles(now: nat, killed: set<FlowId>)

  function Next(s: Sup, setup: Setup, step: Step): Sup {
    match step
    case Dies(id) => if id in s.live then s.(live := s.live - {id}, leaving := s.leaving + {id}) else s
    case Reports(id, outcome) =>
      if id in s.leaving then s.(leaving := s.leaving - {id}, events := s.events + [(id, outcome)]) else s
    case Handles(now, killed) =>
      if s.events == [] then s
      else HandleExit(s.(events := s.events[1..]), setup, s.events[0].0, s.events[0].1, now, killed)
  }

  function Run(s: Sup, setup: Setup, steps: seq<Step>): Sup
    decreases |steps|
  {
    if steps == [] then s else Run(Next(s, setup, steps[0]), setup, steps[1..])
  }

  // ----- the cascade brings back the start order -----

  ghost predicate Distinct(order: seq<FlowId>) {
    forall i, j :: 0 <= i < j < |order| ==> order[i] != order[j]
  }

  /** Every child in the table is running, on its way out, or has an unhandled exit. */
  ghost predicate Accounted(s: Sup, id: FlowId) {
    id in s.live || id in s.leaving || exists i :: 0 <= i < |s.events| && s.events[i].0 == id
  }

  ghost predicate Sound(s: Sup) {
    && Distinct(s.table.order)
    && (forall id :: id in s.table.byId <==> id in s.table.order)
    && (forall id :: id in s.table.byId ==> id < s.nextId && Accounted(s, id))
    && (forall id :: id in s.live || id in s.leaving ==> id < s.nextId)
    && (forall i :: 0 <= i < |s.events| ==> s.events[i].0 < s.nextId)
  }

  /** Older siblings as they were, flagged siblings on their way out, new incarnations. */
  ghost predicate Roles(m: map<FlowId, LiveChild>, older: map<FlowId, LiveChild>, kept: seq<FlowId>,
                        left: seq<FlowId>, born: seq<FlowId>)
  {
    && (forall id :: id in kept ==> id in m && id in older && m[id] == older[id])
    && (forall id :: id in left ==> id in m && m[id].expected)
    && (forall id :: id in born ==> id in m && !m[id].expected)
  }

  /** The slot awaits flagged siblings only, or everything has been started again. */
  ghost predicate SlotOk(s: Sup, left: seq<FlowId>, born: seq<FlowId>, respawn: seq<ChildSpec>) {
    match s.cascade
    case Some(c) => born == [] && c.specs == respawn && c.waiting != {} && forall id :: id in c.waiting ==> id in left
    case None => SpecsOf(s.table.byId, born) == respawn
  }

  /** A cascade on its way. */
  ghost predicate Restoring(s: Sup, older: map<FlowId, LiveChild>, kept: seq<FlowId>, left: seq<FlowId>,
                            born: seq<FlowId>,
                            respawn: seq<ChildSpec>)
  {
    && Sound(s) && !s.gate.exceeded
    && s.table.order == kept + left + born
    && Roles(s.table.byId, older, kept, left, born)
    && SlotOk(s, left, born, respawn)
  }

  /** Only flagged children, or flows no longer in the table, have their exits handled. */
  predicate Calm(s: Sup, step: Step) {
    step.Handles? && s.events != [] && s.events[0].0 in s.table.byId ==> s.table.byId[s.events[0].0].expected
  }

  predicate CalmRun(s: Sup, setup: Setup, steps: seq<Step>)
    decreases |steps|
  {
    steps == [] || (Calm(s, steps[0]) && CalmRun(Next(s, setup, steps[0]), setup, steps[1..]))
  }

  lemma {:induction false} WithoutAbsent(order: seq<FlowId>, id: FlowId)
    requires id !in order
    ensures Without(order, id) == order
  {
    if order != [] {
      WithoutAbsent(order[1..], id);
    }
  }

  lemma {:induction false} WithoutConcat(a: seq<FlowId>, b: seq<FlowId>, id: FlowId)
    ensures Without(a + b, id) == Without(a, id) + Without(b, id)
  {
    if a == [] {
      assert a + b == b;
    } else {
      assert (a + b)[1..] == a[1..] + b;
      WithoutConcat(a[1..], b, id);
    }
  }

  lemma {:induction false} WithoutDistinct(order: seq<FlowId>, id: FlowId)
    requires Distinct(order)
    ensures Distinct(Without(order, id))
  {
    if order != [] {
      WithoutDistinct(order[1..], id);
      assert order[0] !in order[1..];
    }
  }

  lemma {:induction false} WithoutIndex(order: seq<FlowId>, id: FlowId)
    requires Distinct(order) && id in order
    ensures var i := IndexOf(order, id);
            i < |order| && Without(order, id) == order[..i] + order[i + 1..]
  {
    if order[0] == id {
      WithoutAbsent(order[1..], id);
    } else {
      WithoutIndex(order[1..], id);
      var i := IndexOf(order[1..], id);
      assert order[..i + 1] == [order[0]] + order[1..][..i];
    }
  }

  lemma {:induction false} SpecsSame(m: map<FlowId, LiveChild>, n: map<FlowId, LiveChild>, ids: seq<FlowId>)
    requires forall id :: id in ids ==> (id in m <==> id in n) && (id in m ==> m[id].spec == n[id].spec)
    ensures SpecsOf(m, ids) == SpecsOf(n, ids)
  {
    if ids != [] {
      SpecsSame(m, n, ids[1..]);
    }
  }

  lemma {:induction false} SpecsConcat(m: map<FlowId, LiveChild>, a: seq<FlowId>, b: seq<FlowId>)
    ensures SpecsOf(m, a + b) == SpecsOf(m, a) + SpecsOf(m, b)
  {
    if a == [] {
      assert a + b == b;
    } else {
      assert (a + b)[1..] == a[1..] + b;
      SpecsConcat(m, a[1..], b);
    }
  }

  lemma {:induction false} SpecsLength(m: map<FlowId, LiveChild>, ids: seq<FlowId>)
    requires forall id :: id in ids ==> id in m
    ensures |SpecsOf(m, ids)| == |ids|
  {
    if ids != [] {
      SpecsLength(m, ids[1..]);
    }
  }

  lemma {:induction false} FlagEffect(m: map<FlowId, LiveChild>, ids: seq<FlowId>, id: FlowId)
    ensures id in Flag(m, ids) <==> id in m
    ensures id in m ==> Flag(m, ids)[id] == if id in ids then m[id].(expected := true) else m[id]
    decreases |ids|
  {
    if ids != [] {
      FlagEffect(if ids[0] in m then m[ids[0] := m[ids[0]].(expected := true)] else m, ids[1..], id);
    }
  }

  lemma {:induction false} StandingConcat(m: map<FlowId, LiveChild>, a: seq<FlowId>, b: seq<FlowId>)
    ensures Standing(m, a + b) == Standing(m, a) + Standing(m, b)
  {
    if a == [] {
      assert a + b == b;
    } else {
      assert (a + b)[1..] == a[1..] + b;
      StandingConcat(m, a[1..], b);
    }
  }

  /** All of them stand exactly when none is flagged. */
  lemma {:induction false} StandingAll(m: map<FlowId, LiveChild>, ids: seq<FlowId>)
    requires forall id :: id in ids ==> id in m
    ensures |Standing(m, ids)| <= |ids|
    ensures forall id :: id in Standing(m, ids) ==> id in ids
    ensures Unflagged(m, ids) ==> Standing(m, ids) == ids
    ensures |Standing(m, ids)| == |ids| ==> Unflagged(m, ids)
  {
    if ids != [] {
      StandingAll(m, ids[1..]);
      assert ids == [ids[0]] + ids[1..];
    }
  }

  lemma {:induction false} NoneStands(m: map<FlowId, LiveChild>, ids: seq<FlowId>)
    requires forall id :: id in ids && id in m ==> m[id].expected
    ensures Standing(m, ids) == []
  {
    if ids != [] {
      NoneStands(m, ids[1..]);
    }
  }

  lemma {:induction false} StandingWithout(m: map<FlowId, LiveChild>, ids: seq<FlowId>, id: FlowId)
    requires id in m && m[id].expected
    ensures Standing(m, Without(ids, id)) == Standing(m, ids)
  {
    if ids != [] {
      StandingWithout(m, ids[1..], id);
    }
  }

  lemma SpawnSound(s: Sup, spec: ChildSpec)
    requires Sound(s)
    ensures Sound(Spawn(s, spec)) && s.nextId !in s.table.order && s.nextId !in s.table.byId
  {
    var t := Spawn(s, spec);
    assert forall i :: 0 <= i < |s.table.order| ==> s.table.order[i] in s.table.byId;
    forall id | id in t.table.byId ensures Accounted(t, id) {
      if id != s.nextId {
        assert Accounted(s, id);
      }
    }
  }

  lemma RolesInsert(m: map<FlowId, LiveChild>, older: map<FlowId, LiveChild>, kept: seq<FlowId>, left: seq<FlowId>,
                    born: seq<FlowId>,
                    id: FlowId, spec: ChildSpec)
    requires Roles(m, older, kept, left, born) && id !in m
    ensures Roles(m[id := LiveChild(spec, false)], older, kept, left, born + [id])
  {
  }

  lemma RolesRemove(m: map<FlowId, LiveChild>, older: map<FlowId, LiveChild>, kept: seq<FlowId>, left: seq<FlowId>,
                    born: seq<FlowId>, id: FlowId)
    requires Roles(m, older, kept, left, born) && id !in kept && id !in born
    ensures Roles(m - {id}, older, kept, Without(left, id), born)
  {
  }

  lemma RolesKnown(m: map<FlowId, LiveChild>, older: map<FlowId, LiveChild>, kept: seq<FlowId>, left: seq<FlowId>,
                   born: seq<FlowId>)
    requires Roles(m, older, kept, left, born)
    ensures forall id :: id in kept || id in left || id in born ==> id in m
  {
  }

  lemma SpawnRestores(s: Sup, older: map<FlowId, LiveChild>, kept: seq<FlowId>, left: seq<FlowId>, born: seq<FlowId>,
                      done: seq<ChildSpec>, spec: ChildSpec)
    requires Restoring(s, older, kept, left, born, done) && s.cascade.None?
    ensures Restoring(Spawn(s, spec), older, kept, left, born + [s.nextId], done + [spec])
  {
    hide Sound, Roles;
    SpawnSound(s, spec);
    var t := Spawn(s, spec);
    assert t.table.order == kept + left + (born + [s.nextId]);
    RolesInsert(s.table.byId, older, kept, left, born, s.nextId, spec);
    RolesKnown(s.table.byId, older, kept, left, born);
    SpecsConcat(t.table.byId, born, [s.nextId]);
    SpecsSame(s.table.byId, t.table.byId, born);
    assert SpecsOf(t.table.byId, [s.nextId]) == [spec] + SpecsOf(t.table.byId, []);
  }

  lemma {:induction false} SpawnAllRestores(s: Sup, older: map<FlowId, LiveChild>, kept: seq<FlowId>,
                                            left: seq<FlowId>, born: seq<FlowId>,
                                            done: seq<ChildSpec>, specs: seq<ChildSpec>) returns (all: seq<FlowId>)
    requires Restoring(s, older, kept, left, born, done) && s.cascade.None?
    ensures Restoring(SpawnAll(s, specs), older, kept, left, all, done + specs) && SpawnAll(s, specs).cascade.None?
    decreases |specs|
  {
    hide Restoring;
    if specs == [] {
      all := born;
      assert done + specs == done;
    } else {
      SpawnRestores(s, older, kept, left, born, done, specs[0]);
      all := SpawnAllRestores(Spawn(s, specs[0]), older, kept, left, born + [s.nextId], done + [specs[0]], specs[1..]);
      assert done + specs == (done + [specs[0]]) + specs[1..];
    }
  }

  /** Finishing starts everything on the list again, whoever is still leaving. */
  lemma FinishRestores(s: Sup, older: map<FlowId, LiveChild>, kept: seq<FlowId>, left: seq<FlowId>,
                       respawn: seq<ChildSpec>)
    returns (born: seq<FlowId>)
    requires s.cascade.Some? && s.cascade.value.specs == respawn
    requires Restoring(s.(cascade := None), older, kept, left, [], [])
    ensures Restoring(FinishCascade(s), older, kept, left, born, respawn)
  {
    born := SpawnAllRestores(s.(cascade := None), older, kept, left, [], [], respawn);
    hide Sound;
    assert [] + respawn == respawn;
  }

  lemma RemoveSound(s: Sup, id: FlowId)
    requires Sound(s) && s.events != [] && s.events[0].0 == id
    ensures Sound(s.(events := s.events[1..], table := Remove(s.table, id)))
  {
    var t := s.(events := s.events[1..], table := Remove(s.table, id));
    WithoutDistinct(s.table.order, id);
    forall x | x in t.table.byId ensures Accounted(t, x) {
      assert Accounted(s, x);
      if i :| 0 <= i < |s.events| && s.events[i].0 == x {
        assert t.events[i - 1].0 == x;
      }
    }
  }

  lemma StaleSound(s: Sup)
    requires Sound(s) && s.events != [] && s.events[0].0 !in s.table.byId
    ensures Sound(s.(events := s.events[1..]))
  {
    var t := s.(events := s.events[1..]);
    forall x | x in t.table.byId ensures Accounted(t, x) {
      assert Accounted(s, x);
      if i :| 0 <= i < |s.events| && s.events[i].0 == x {
        assert t.events[i - 1].0 == x;
      }
    }
  }

  lemma MoveSound(s: Sup, id: FlowId, outcome: Outcome)
    requires Sound(s)
    ensures id in s.live ==> Sound(s.(live := s.live - {id}, leaving := s.leaving + {id}))
    ensures id in s.leaving ==> Sound(s.(leaving := s.leaving - {id}, events := s.events + [(id, outcome)]))
  {
    if id in s.live {
      var t := s.(live := s.live - {id}, leaving := s.leaving + {id});
      forall x | x in t.table.byId ensures Accounted(t, x) {
        assert Accounted(s, x);
      }
    }
    if id in s.leaving {
      var t := s.(leaving := s.leaving - {id}, events := s.events + [(id, outcome)]);
      assert t.events[|s.events|].0 == id;
      forall x | x in t.table.byId ensures Accounted(t, x) {
        assert Accounted(s, x);
        if i :| 0 <= i < |s.events| && s.events[i].0 == x {
          assert t.events[i].0 == x;
        }
      }
    }
  }

  /** Taking one flagged child out of the table leaves everything else in place. */
  lemma RemoveFromOrder(kept: seq<FlowId>, left: seq<FlowId>, born: seq<FlowId>, id: FlowId)
    requires Distinct(kept + left + born) && id in left
    ensures Without(kept + left + born, id) == kept + Without(left, id) + born
    ensures id !in kept && id !in born
  {
    var all := kept + left + born;
    var i :| 0 <= i < |left| && left[i] == id;
    assert all[|kept| + i] == id;
    forall j | 0 <= j < |kept| ensures kept[j] != id {
      assert all[j] == kept[j];
    }
    forall j | 0 <= j < |born| ensures born[j] != id {
      assert all[|kept| + |left| + j] == born[j];
    }
    WithoutConcat(kept + left, born, id);
    WithoutConcat(kept, left, id);
    WithoutAbsent(kept, id);
    WithoutAbsent(born, id);
  }

  /** A flagged child's exit is handled: it leaves the table, and the last awaited one sets off the restarts. */
  lemma FlaggedExitRestores(s: Sup, older: map<FlowId, LiveChild>, kept: seq<FlowId>, left: seq<FlowId>,
                            born: seq<FlowId>,
                            respawn: seq<ChildSpec>, id: FlowId) returns (born': seq<FlowId>)
    requires Restoring(s, older, kept, left, born, respawn) && s.events != [] && s.events[0].0 == id && id in left
    ensures Restoring(Progress(s.(events := s.events[1..], table := Remove(s.table, id)), id),
                      older, kept, Without(left, id), born', respawn)
  {
    hide Sound, Distinct, Roles, SpecsOf, FinishCascade, Without;
    RestoringDistinct(s, older, kept, left, born, respawn);
    RemoveFromOrder(kept, left, born, id);
    RemoveSound(s, id);
    RolesRemove(s.table.byId, older, kept, left, born, id);
    RolesKnown(s.table.byId, older, kept, left, born);
    var t := s.(events := s.events[1..], table := Remove(s.table, id));
    born' := born;
    match s.cascade {
      case None => SpecsSame(s.table.byId, t.table.byId, born);
      case Some(c) =>
        if c.waiting - {id} == {} {
          born' := LastExitRestores(t, older, kept, Without(left, id), respawn);
          assert c.(waiting := c.waiting - {id}) == c.(waiting := {});
        } else {
          SlotSound(t, Some(c.(waiting := c.waiting - {id})));
        }
    }
  }

  lemma RolesForget(m: map<FlowId, LiveChild>, older: map<FlowId, LiveChild>, kept: seq<FlowId>, left: seq<FlowId>,
                    born: seq<FlowId>, id: FlowId)
    requires Roles(m, older, kept, left, born) && id !in left && id !in born
    ensures Roles(m - {id}, older, Without(kept, id), left, born)
  {
  }

  lemma RemoveFromKept(kept: seq<FlowId>, left: seq<FlowId>, born: seq<FlowId>, id: FlowId)
    requires Distinct(kept + left + born) && id in kept
    ensures Without(kept + left + born, id) == Without(kept, id) + left + born
    ensures id !in left && id !in born
  {
    assert kept + left + born == [] + kept + (left + born);
    RemoveFromOrder([], kept, left + born, id);
    assert Without(kept, id) + left + born == [] + Without(kept, id) + (left + born);
    assert forall x :: x in left || x in born ==> x in left + born;
  }

  /** An older sibling that was flagged before the failure leaves the table; the slot does not wait for it. */
  lemma OlderExitRestores(s: Sup, older: map<FlowId, LiveChild>, kept: seq<FlowId>, left: seq<FlowId>,
                          born: seq<FlowId>, respawn: seq<ChildSpec>, id: FlowId)
    requires Restoring(s, older, kept, left, born, respawn) && s.events != [] && s.events[0].0 == id
    requires id in kept && older[id].expected
    ensures Restoring(Progress(s.(events := s.events[1..], table := Remove(s.table, id)), id),
                      older, Without(kept, id), left, born, respawn)
  {
    hide Sound, Distinct, Roles, SpecsOf, FinishCascade, Without;
    RestoringDistinct(s, older, kept, left, born, respawn);
    RemoveFromKept(kept, left, born, id);
    RemoveSound(s, id);
    RolesForget(s.table.byId, older, kept, left, born, id);
    RolesKnown(s.table.byId, older, kept, left, born);
    var t := s.(events := s.events[1..], table := Remove(s.table, id));
    match s.cascade {
      case None => SpecsSame(s.table.byId, t.table.byId, born);
      case Some(c) =>
        assert c.waiting - {id} == c.waiting;
        assert Progress(t, id) == t;
    }
  }

  lemma RestoringDistinct(s: Sup, older: map<FlowId, LiveChild>, kept: seq<FlowId>, left: seq<FlowId>,
                          born: seq<FlowId>,
                          respawn: seq<ChildSpec>)
    requires Restoring(s, older, kept, left, born, respawn)
    ensures Distinct(kept + left + born)
  {
  }

  lemma SlotSound(t: Sup, slot: Option<Cascade>)
    requires Sound(t)
    ensures Sound(t.(cascade := slot))
  {
    var u := t.(cascade := slot);
    forall x | x in u.table.byId ensures Accounted(u, x) {
      assert Accounted(t, x);
    }
  }

  lemma LastExitRestores(t: Sup, older: map<FlowId, LiveChild>, kept: seq<FlowId>, left: seq<FlowId>,
                         respawn: seq<ChildSpec>)
    returns (born: seq<FlowId>)
    requires Sound(t) && !t.gate.exceeded && t.table.order == kept + left + []
    requires Roles(t.table.byId, older, kept, left, [])
    requires t.cascade.Some? && t.cascade.value.specs == respawn
    ensures Restoring(FinishCascade(t.(cascade := Some(t.cascade.value.(waiting := {})))), older, kept, left, born,
                      respawn)
  {
    hide Sound, Roles;
    SlotSound(t, None);
    assert SpecsOf(t.table.byId, []) == [];
    born := FinishRestores(t.(cascade := Some(t.cascade.value.(waiting := {}))), older, kept, left, respawn);
  }

  /** What is left of the older and of the flagged siblings after some of the flagged ones have gone. */
  ghost predicate Dwindled(older: map<FlowId, LiveChild>, kept: seq<FlowId>, left: seq<FlowId>,
                           kept': seq<FlowId>, left': seq<FlowId>)
  {
    && Standing(older, kept') == Standing(older, kept)
    && (forall id :: id in kept' ==> id in kept)
    && |left'| <= |left|
  }

  /** No step that concerns flagged children only disturbs the cascade. */
  lemma NextRestores(s: Sup, setup: Setup, step: Step, older: map<FlowId, LiveChild>, kept: seq<FlowId>,
                     left: seq<FlowId>, born: seq<FlowId>, respawn: seq<ChildSpec>)
    returns (kept': seq<FlowId>, left': seq<FlowId>, born': seq<FlowId>)
    requires Restoring(s, older, kept, left, born, respawn) && Calm(s, step)
    ensures Restoring(Next(s, setup, step), older, kept', left', born', respawn)
    ensures Dwindled(older, kept, left, kept', left')
  {
    hide Sound, Distinct, SpecsOf, Progress, Without, Standing;
    kept', left', born' := kept, left, born;
    match step {
      case Dies(id) => MoveSound(s, id, Completed);
      case Reports(id, outcome) => MoveSound(s, id, outcome);
      case Handles(now, killed) =>
        if s.events != [] {
          var id := s.events[0].0;
          if id in s.table.byId {
            FlaggedIsLeft(s, older, kept, left, born, respawn, id);
            if id in left {
              born' := FlaggedExitRestores(s, older, kept, left, born, respawn, id);
              left' := Without(left, id);
              WithoutShorter(left, id);
            } else {
              OlderExitRestores(s, older, kept, left, born, respawn, id);
              kept' := Without(kept, id);
              StandingWithout(older, kept, id);
            }
          } else {
            StaleSound(s);
          }
        }
    }
  }

  lemma {:induction false} WithoutShorter(order: seq<FlowId>, id: FlowId)
    ensures |Without(order, id)| <= |order|
  {
    if order != [] {
      WithoutShorter(order[1..], id);
    }
  }

  lemma FlaggedIsLeft(s: Sup, older: map<FlowId, LiveChild>, kept: seq<FlowId>, left: seq<FlowId>, born: seq<FlowId>,
                      respawn: seq<ChildSpec>, id: FlowId)
    requires Restoring(s, older, kept, left, born, respawn) && id in s.table.byId && s.table.byId[id].expected
    ensures id in left || (id in kept && id in older && older[id].expected)
  {
    hide Distinct, SpecsOf, Accounted;
    assert id in s.table.order;
  }

  lemma {:induction false} RunRestores(s: Sup, setup: Setup, steps: seq<Step>, older: map<FlowId, LiveChild>,
                                       kept: seq<FlowId>, left: seq<FlowId>, born: seq<FlowId>,
                                       respawn: seq<ChildSpec>)
    returns (kept': seq<FlowId>, left': seq<FlowId>, born': seq<FlowId>)
    requires Restoring(s, older, kept, left, born, respawn) && CalmRun(s, setup, steps)
    ensures Restoring(Run(s, setup, steps), older, kept', left', born', respawn)
    ensures Dwindled(older, kept, left, kept', left')
    decreases |steps|
  {
    hide Restoring, Next, Calm, Standing;
    kept', left', born' := kept, left, born;
    if steps != [] {
      kept', left', born' := NextRestores(s, setup, steps[0], older, kept, left, born, respawn);
      var mid, out := kept', left';
      kept', left', born' :=
        RunRestores(Next(s, setup, steps[0]), setup, steps[1..], older, mid, out, born', respawn);
    }
  }

  /** Who stays and who is torn down when the child at `at` fails. */
  function Older(strategy: Strategy, order: seq<FlowId>, at: nat): seq<FlowId>
    requires at < |order|
  {
    if strategy.RestForOne? then order[..at] else []
  }

  function Torn(strategy: Strategy, order: seq<FlowId>, at: nat): seq<FlowId>
    requires at < |order|
  {
    if strategy.RestForOne? then order[at + 1..] else order[..at] + order[at + 1..]
  }

  lemma BackInPlace(a: seq<ChildSpec>, failed: ChildSpec, b: seq<ChildSpec>)
    ensures RespawnList(OneForAll, failed, |a|, a + b) == a + [failed] + b
  {
    assert (a + b)[..|a|] == a && (a + b)[|a|..] == b;
  }

  /** The specs to start again complete those of the children that stay, in start order. */
  lemma RespawnCompletes(strategy: Strategy, m: map<FlowId, LiveChild>, order: seq<FlowId>, at: nat)
    requires !strategy.OneForOne? && at < |order| && forall id :: id in order ==> id in m
    ensures SpecsOf(m, Older(strategy, order, at))
            + RespawnList(strategy, m[order[at]].spec, at, SpecsOf(m, Torn(strategy, order, at)))
            == SpecsOf(m, order)
  {
    hide SpecsOf, RespawnList;
    var a, b := order[..at], order[at + 1..];
    SpecsSplit(m, order, at);
    if strategy.OneForAll? {
      SpecsConcat(m, a, b);
      SpecsLength(m, a);
      NoSpecs(m);
      BackInPlace(SpecsOf(m, a), m[order[at]].spec, SpecsOf(m, b));
    } else {
      AfterIt(m[order[at]].spec, at, SpecsOf(m, b));
    }
  }

  lemma AfterIt(failed: ChildSpec, at: nat, b: seq<ChildSpec>)
    ensures RespawnList(RestForOne, failed, at, b) == [failed] + b
  {
  }

  lemma NoSpecs(m: map<FlowId, LiveChild>)
    ensures SpecsOf(m, []) == []
  {
  }

  lemma SpecsSplit(m: map<FlowId, LiveChild>, order: seq<FlowId>, at: nat)
    requires at < |order| && order[at] in m
    ensures SpecsOf(m, order) == SpecsOf(m, order[..at]) + [m[order[at]].spec] + SpecsOf(m, order[at + 1..])
  {
    var tail := order[at..];
    assert order == order[..at] + tail && tail[1..] == order[at + 1..];
    SpecsConcat(m, order[..at], tail);
  }

  /** The exits after which a child is to come back. */
  const COMES_BACK: set<(RestartPolicy, Outcome)> :=
    {(Always, Completed), (Always, Failed), (OnFailure, Failed)}

  /** `Always` comes back after any exit, `OnFailure` after a failure, `Never` after none. */
  lemma RestartsAre(policy: RestartPolicy, outcome: Outcome)
    ensures ShouldRestart(policy, outcome) <==> (policy, outcome) in COMES_BACK
  {
  }

  /** An unexpected exit is next, and the restart it asks for is allowed. */
  ghost predicate Fails(s: Sup, setup: Setup, id: FlowId, now: nat) {
    && Sound(s) && !s.gate.exceeded && !setup.strategy.OneForOne?
    && s.events != [] && s.events[0].0 == id && id in s.table.byId && !s.table.byId[id].expected
    && (s.table.byId[id].spec.restart, s.events[0].1) in COMES_BACK
    && Ask(s.gate, setup.intensity, now).1
  }

  /** The table right after the flags are set. */
  lemma FlagRoles(m: map<FlowId, LiveChild>, kept: seq<FlowId>, torn: seq<FlowId>, id: FlowId)
    requires forall x :: x in kept ==> x in m && x !in torn && x != id
    requires forall x :: x in torn ==> x in m && x != id
    ensures Roles(Flag(m - {id}, torn), m, kept, torn, [])
    ensures forall x :: x in Flag(m - {id}, torn) <==> x in m && x != id
  {
    forall x
      ensures x in Flag(m - {id}, torn) <==> x in m && x != id
      ensures x in m && x != id ==>
                Flag(m - {id}, torn)[x] == if x in torn then m[x].(expected := true) else m[x]
    {
      FlagEffect(m - {id}, torn, x);
    }
  }

  lemma OrderParts(strategy: Strategy, order: seq<FlowId>, id: FlowId)
    requires Distinct(order) && id in order && !strategy.OneForOne?
    ensures var at := IndexOf(order, id);
            && at < |order| && order[at] == id
            && Without(order, id) == Older(strategy, order, at) + Torn(strategy, order, at)
            && Torn(strategy, order, at) == LaterThan(strategy, Without(order, id), at)
            && (forall x :: x in Older(strategy, order, at) ==>
                  x in order && x != id && x !in Torn(strategy, order, at))
            && (forall x :: x in Torn(strategy, order, at) ==> x in order && x != id)
  {
    WithoutIndex(order, id);
  }

  /** The failing child's exit is handled: the cascade starts, or is over at once. */
  lemma StartRestores(s: Sup, setup: Setup, id: FlowId, now: nat, killed: set<FlowId>) returns (born: seq<FlowId>)
    requires Fails(s, setup, id, now)
    ensures var at := IndexOf(s.table.order, id);
            && at < |s.table.order|
            && Restoring(Next(s, setup, Handles(now, killed)), s.table.byId, Older(setup.strategy, s.table.order, at),
                         Torn(setup.strategy, s.table.order, at), born,
                         RespawnList(setup.strategy, s.table.byId[id].spec, at,
                                     SpecsOf(s.table.byId, Torn(setup.strategy, s.table.order, at))))
  {
    RestartsAre(s.table.byId[id].spec.restart, s.events[0].1);
    hide Sound, Distinct, SpecsOf, RespawnList, Roles, Without, Flag, IndexOf, Accounted, LaterThan, Older, Torn,
         Ask, StartCascade, ShouldRestart;
    var order, m := s.table.order, s.table.byId;
    FailedIsRemoved(s, setup, id, now);
    var at := IndexOf(order, id);
    var kept, torn := Older(setup.strategy, order, at), Torn(setup.strategy, order, at);
    var gate := Ask(s.gate, setup.intensity, now).0;
    var removed := s.(events := s.events[1..], table := Remove(s.table, id), gate := gate);
    born := CascadeRestores(removed, setup, m, kept, torn, m[id].spec, at, killed);
  }

  lemma AllowedIsOpen(g: Gate, c: Config, now: nat)
    requires Ask(g, c, now).1
    ensures !Ask(g, c, now).0.exceeded
  {
  }

  /** What the cascade starts from. */
  lemma FailedIsRemoved(s: Sup, setup: Setup, id: FlowId, now: nat)
    requires Fails(s, setup, id, now)
    ensures var order, m := s.table.order, s.table.byId;
            var at := IndexOf(order, id);
            var gate := Ask(s.gate, setup.intensity, now).0;
            var removed := s.(events := s.events[1..], table := Remove(s.table, id), gate := gate);
            && at < |order| && !m[id].expected && !gate.exceeded
            && Sound(removed)
            && var kept, torn := Older(setup.strategy, order, at), Torn(setup.strategy, order, at);
               && removed.table.order == kept + torn
               && torn == LaterThan(setup.strategy, removed.table.order, at)
               && Roles(Flag(removed.table.byId, torn), m, kept, torn, [])
               && (forall x :: x in Flag(removed.table.byId, torn) <==> x in removed.table.byId)
               && SpecsOf(removed.table.byId, torn) == SpecsOf(m, torn)
  {
    var order, m := s.table.order, s.table.byId;
    SoundOrder(s);
    OrderParts(setup.strategy, order, id);
    RemoveSound(s, id);
    AllowedIsOpen(s.gate, setup.intensity, now);
    hide Sound, Distinct, Accounted, Ask, LaterThan, Older, Torn, Roles, Flag, IndexOf, Without;
    var at := IndexOf(order, id);
    var kept, torn := Older(setup.strategy, order, at), Torn(setup.strategy, order, at);
    FlagRoles(m, kept, torn, id);
    SpecsSame(Remove(s.table, id).byId, m, torn);
    GateSound(s.(events := s.events[1..], table := Remove(s.table, id)), Ask(s.gate, setup.intensity, now).0);
  }

  lemma SoundOrder(s: Sup)
    requires Sound(s)
    ensures Distinct(s.table.order) && forall id :: id in s.table.byId <==> id in s.table.order
  {
  }

  lemma GateSound(s: Sup, gate: Gate)
    requires Sound(s)
    ensures Sound(s.(gate := gate))
  {
    var t := s.(gate := gate);
    forall x | x in t.table.byId ensures Accounted(t, x) {
      assert Accounted(s, x);
    }
  }

  lemma CascadeRestores(s: Sup, setup: Setup, older: map<FlowId, LiveChild>, kept: seq<FlowId>, torn: seq<FlowId>,
                        failed: ChildSpec, at: nat,
                        killed: set<FlowId>) returns (born: seq<FlowId>)
    requires Sound(s) && !s.gate.exceeded && s.table.order == kept + torn
    requires Roles(Flag(s.table.byId, torn), older, kept, torn, [])
    requires forall x :: x in Flag(s.table.byId, torn) <==> x in s.table.byId
    ensures Restoring(StartCascade(s, setup, failed, at, torn, killed), older, kept, torn, born,
                      RespawnList(setup.strategy, failed, at, SpecsOf(s.table.byId, torn)))
  {
    hide SpecsOf, RespawnList, Roles, Flag;
    var specs := RespawnList(setup.strategy, failed, at, SpecsOf(s.table.byId, torn));
    var all := set x | x in torn;
    var dead := killed * all * s.live;
    var next := s.(table := s.table.(byId := Flag(s.table.byId, torn)), live := s.live - dead,
                   leaving := s.leaving + dead,
                   cascade := Some(Cascade(all * (s.live - dead), specs)));
    assert next.table.order == kept + torn + [];
    KillSound(s, Flag(s.table.byId, torn), dead, next.cascade);
    hide Sound;
    born := [];
    if all * (s.live - dead) == {} {
      born := LastExitRestores(next, older, kept, torn, specs);
      assert next.cascade.value.(waiting := {}) == next.cascade.value;
    }
  }

  lemma KillSound(s: Sup, m: map<FlowId, LiveChild>, dead: set<FlowId>, slot: Option<Cascade>)
    requires Sound(s) && dead <= s.live && forall x :: x in m <==> x in s.table.byId
    ensures Sound(s.(table := s.table.(byId := m), live := s.live - dead, leaving := s.leaving + dead, cascade := slot))
  {
    var t := s.(table := s.table.(byId := m), live := s.live - dead, leaving := s.leaving + dead, cascade := slot);
    forall x | x in t.table.byId ensures Accounted(t, x) {
      assert Accounted(s, x);
    }
  }

  /** Nothing flagged is still running or has an exit on its way. */
  ghost predicate Drained(s: Sup) {
    && s.leaving == {} && s.events == []
    && forall id :: id in s.table.byId && s.table.byId[id].expected ==> id !in s.live
  }

  /** Who was there before the failure and is not torn down by it. */
  function Spared(s: Sup, setup: Setup, id: FlowId): seq<FlowId>
    requires IndexOf(s.table.order, id) < |s.table.order|
  {
    Older(setup.strategy, s.table.order, IndexOf(s.table.order, id))
  }

  /** Who is torn down by it. */
  function Doomed(s: Sup, setup: Setup, id: FlowId): seq<FlowId>
    requires IndexOf(s.table.order, id) < |s.table.order|
  {
    Torn(setup.strategy, s.table.order, IndexOf(s.table.order, id))
  }

  /** The list the slot is given. */
  function ToStart(s: Sup, setup: Setup, id: FlowId): seq<ChildSpec>
    requires IndexOf(s.table.order, id) < |s.table.order| && id in s.table.byId
  {
    RespawnList(setup.strategy, s.table.byId[id].spec, IndexOf(s.table.order, id),
                SpecsOf(s.table.byId, Doomed(s, setup, id)))
  }

  lemma FailedIsListed(s: Sup, id: FlowId)
    requires Sound(s) && id in s.table.byId
    ensures IndexOf(s.table.order, id) < |s.table.order| && s.table.order[IndexOf(s.table.order, id)] == id
  {
  }

  /** The failure, and a calm run until all exits have drained. */
  ghost predicate Drains(s: Sup, setup: Setup, id: FlowId, now: nat, killed: set<FlowId>, steps: seq<Step>, t: Sup) {
    && Fails(s, setup, id, now)
    && CalmRun(Next(s, setup, Handles(now, killed)), setup, steps)
    && t == Run(Next(s, setup, Handles(now, killed)), setup, steps)
    && Drained(t)
  }

  /**
   What a cascade leaves: the spared siblings that were not flagged, as the same incarnations, and
   after them everything on the list, whatever was in the slot or flagged before.
   */
  lemma CascadeLeaves(s: Sup, setup: Setup, id: FlowId, now: nat, killed: set<FlowId>, steps: seq<Step>, t: Sup)
    requires Drains(s, setup, id, now, killed, steps, t)
    ensures IndexOf(s.table.order, id) < |s.table.order|
    ensures var kept := Standing(s.table.byId, Spared(s, setup, id));
            && SpecsOf(t.table.byId, t.table.order) == SpecsOf(s.table.byId, kept) + ToStart(s, setup, id)
            && t.cascade.None?
            && kept <= t.table.order
            && forall x :: x in kept ==> x in t.table.byId && x in s.table.byId && t.table.byId[x] == s.table.byId[x]
  {
    FailedIsListed(s, id);
    var at := IndexOf(s.table.order, id);
    var born := StartRestores(s, setup, id, now, killed);
    var kept, torn := Older(setup.strategy, s.table.order, at), Torn(setup.strategy, s.table.order, at);
    var respawn := RespawnList(setup.strategy, s.table.byId[id].spec, at, SpecsOf(s.table.byId, torn));
    hide Next, Run, CalmRun, SpecsOf, RespawnList, IndexOf, Standing, Sound, Older, Torn, Restoring;
    var kept', left, born' :=
      RunRestores(Next(s, setup, Handles(now, killed)), setup, steps, s.table.byId, kept, torn, born, respawn);
    DrainedIsRestored(t, s.table.byId, kept', left, born', respawn);
  }

  lemma DrainedIsRestored(t: Sup, older: map<FlowId, LiveChild>, kept: seq<FlowId>, left: seq<FlowId>,
                          born: seq<FlowId>, respawn: seq<ChildSpec>)
    requires Restoring(t, older, kept, left, born, respawn) && Drained(t)
    ensures left == [] && t.cascade.None? && t.table.order == kept + born && Standing(older, kept) == kept
    ensures SpecsOf(t.table.byId, t.table.order) == SpecsOf(older, kept) + respawn
    ensures forall x :: x in kept ==> x in t.table.byId && x in older && t.table.byId[x] == older[x]
  {
    hide Sound, SpecsOf, Standing;
    DrainedIsUnflagged(t);
    SomebodyIn(left);
    assert left == [];
    assert t.cascade.Some? ==> t.cascade.value.waiting == {};
    SpecsSame(t.table.byId, older, kept);
    SpecsConcat(t.table.byId, kept, born);
    assert kept + left + born == kept + born;
    StandingAll(older, kept);
  }

  lemma SomebodyIn(ids: seq<FlowId>)
    ensures ids != [] ==> exists id :: id in ids
  {
    if ids != [] {
      assert ids[0] in ids;
    }
  }

  lemma DrainedIsUnflagged(t: Sup)
    requires Sound(t) && Drained(t)
    ensures forall id :: id in t.table.byId ==> !t.table.byId[id].expected
  {
    forall id | id in t.table.byId ensures !t.table.byId[id].expected {
      assert Accounted(t, id);
    }
  }

  lemma PartsKnown(s: Sup, setup: Setup, id: FlowId)
    requires Sound(s) && id in s.table.byId && !setup.strategy.OneForOne?
    ensures IndexOf(s.table.order, id) < |s.table.order|
    ensures forall x :: x in s.table.order || x in Spared(s, setup, id) || x in Doomed(s, setup, id) ==>
              x in s.table.byId
  {
    SoundOrder(s);
    OrderParts(setup.strategy, s.table.order, id);
  }

  lemma StartList(s: Sup, setup: Setup, id: FlowId)
    requires Sound(s) && id in s.table.byId && !setup.strategy.OneForOne?
    ensures IndexOf(s.table.order, id) < |s.table.order|
    ensures SpecsOf(s.table.byId, Spared(s, setup, id)) + ToStart(s, setup, id)
            == SpecsOf(s.table.byId, s.table.order)
    ensures |SpecsOf(s.table.byId, s.table.order)| == |s.table.order|
    ensures |ToStart(s, setup, id)| == |Doomed(s, setup, id)| + 1
  {
    PartsKnown(s, setup, id);
    FailedIsListed(s, id);
    RespawnCompletes(setup.strategy, s.table.byId, s.table.order, IndexOf(s.table.order, id));
    SpecsLength(s.table.byId, s.table.order);
    SpecsLength(s.table.byId, Doomed(s, setup, id));
    hide SpecsOf, IndexOf;
  }

  /**
   When a child fails and, until all pending exits have drained, no other unexpected exit is
   handled, the ordered list of child specs is what it was before the failure if and only if no
   child older than the failed one was being torn down; under `OneForAll` that is always so.
   Under `RestForOne` the older siblings are then the same incarnations as before.
   */
  lemma CascadeRestoresOrder(s: Sup, setup: Setup, id: FlowId, now: nat, killed: set<FlowId>, steps: seq<Step>, t: Sup)
    requires Drains(s, setup, id, now, killed, steps, t)
    ensures IndexOf(s.table.order, id) < |s.table.order| && t.cascade.None?
    ensures SpecsOf(t.table.byId, t.table.order) == SpecsOf(s.table.byId, s.table.order)
            <==> Unflagged(s.table.byId, Spared(s, setup, id))
    ensures setup.strategy.OneForAll? ==> SpecsOf(t.table.byId, t.table.order) == SpecsOf(s.table.byId, s.table.order)
    ensures setup.strategy.RestForOne? && Unflagged(s.table.byId, Spared(s, setup, id)) ==>
              var older := s.table.order[..IndexOf(s.table.order, id)];
              older <= t.table.order
              && forall x :: x in older ==> x in t.table.byId && x in s.table.byId && t.table.byId[x] == s.table.byId[x]
  {
    PartsKnown(s, setup, id);
    CascadeLeaves(s, setup, id, now, killed, steps, t);
    StartList(s, setup, id);
    var spared := Spared(s, setup, id);
    StandingAll(s.table.byId, spared);
    hide Drains, IndexOf, SpecsOf, Standing, ToStart, Doomed;
    SpecsLength(s.table.byId, spared);
    SpecsLength(s.table.byId, Standing(s.table.byId, spared));
  }

  lemma StandingAround(m: map<FlowId, LiveChild>, a: seq<FlowId>, id: FlowId, b: seq<FlowId>)
    requires id in m && !m[id].expected
    ensures Standing(m, a + [id] + b) == Standing(m, a) + [id] + Standing(m, b)
  {
    StandingConcat(m, a + [id], b);
    StandingConcat(m, a, [id]);
    assert Standing(m, [id]) == [id] + Standing(m, []);
  }

  /** The children that stand before the failure, split around the failed one. */
  lemma StandingParts(s: Sup, setup: Setup, id: FlowId)
    requires Sound(s) && id in s.table.byId && !s.table.byId[id].expected && !setup.strategy.OneForOne?
    ensures IndexOf(s.table.order, id) < |s.table.order|
    ensures var m := s.table.byId;
            |Standing(m, s.table.order)|
            == |Standing(m, Spared(s, setup, id))| + 1 + |Standing(m, Doomed(s, setup, id))|
  {
    hide Sound, Standing, IndexOf;
    FailedIsListed(s, id);
    var m, order, at := s.table.byId, s.table.order, IndexOf(s.table.order, id);
    var a, b := order[..at], order[at + 1..];
    assert order == a + [id] + b;
    StandingAround(m, a, id, b);
    StandingConcat(m, a, b);
    NoneStands(m, []);
  }

  /** The failed child and the later ones, none of them flagged, follow those older ones that stand. */
  lemma LaterReturn(m: map<FlowId, LiveChild>, a: seq<FlowId>, id: FlowId, b: seq<FlowId>)
    requires id in m && !m[id].expected && Unflagged(m, b) && forall x :: x in b ==> x in m
    ensures SpecsOf(m, Standing(m, a)) + ([m[id].spec] + SpecsOf(m, b)) == SpecsOf(m, Standing(m, a + [id] + b))
  {
    StandingAround(m, a, id, b);
    StandingAll(m, b);
    hide Standing, Unflagged;
    var kept := Standing(m, a);
    SpecsConcat(m, kept + [id], b);
    SpecsConcat(m, kept, [id]);
    assert SpecsOf(m, [id]) == [m[id].spec] + SpecsOf(m, []);
  }

  /** What was standing before the failure is what stands afterwards, if nobody torn down was flagged. */
  lemma StandingReturns(s: Sup, setup: Setup, id: FlowId)
    requires Sound(s) && id in s.table.byId && !s.table.byId[id].expected && !setup.strategy.OneForOne?
    requires IndexOf(s.table.order, id) < |s.table.order| && Unflagged(s.table.byId, Doomed(s, setup, id))
    ensures var m := s.table.byId;
            SpecsOf(m, Standing(m, Spared(s, setup, id))) + ToStart(s, setup, id)
            == SpecsOf(m, Standing(m, s.table.order))
  {
    hide Sound, Standing, SpecsOf, IndexOf;
    var m, order := s.table.byId, s.table.order;
    FailedIsListed(s, id);
    PartsKnown(s, setup, id);
    var at := IndexOf(order, id);
    if setup.strategy.RestForOne? {
      assert order == order[..at] + [id] + order[at + 1..];
      LaterReturn(m, order[..at], id, order[at + 1..]);
    } else {
      OthersUnflagged(m, order, at);
      StandingAll(m, order);
      StartList(s, setup, id);
      NoneStands(m, []);
    }
  }

  lemma OthersUnflagged(m: map<FlowId, LiveChild>, order: seq<FlowId>, at: nat)
    requires at < |order| && Unflagged(m, order[..at] + order[at + 1..]) && Unflagged(m, [order[at]])
    ensures Unflagged(m, order)
  {
    forall x | x in order && x in m ensures !m[x].expected {
      var i :| 0 <= i < |order| && order[i] == x;
      assert i < at ==> order[..at][i] == x;
      assert i > at ==> order[at + 1..][i - at - 1] == x;
      assert i == at ==> x in [order[at]];
      assert i != at ==> x in order[..at] + order[at + 1..];
    }
  }

  /**
   Measured by the children that nobody was tearing down, the cascade restores the list if and
   only if none of those it tears down was flagged already; a flagged one, whose incarnation is
   on its way out and whose spec may have been started again, is started once more.
   */
  lemma CascadeRestoresTheStanding(s: Sup, setup: Setup, id: FlowId, now: nat, killed: set<FlowId>,
                                   steps: seq<Step>, t: Sup)
    requires Drains(s, setup, id, now, killed, steps, t)
    ensures IndexOf(s.table.order, id) < |s.table.order|
    ensures SpecsOf(t.table.byId, t.table.order) == SpecsOf(s.table.byId, Standing(s.table.byId, s.table.order))
            <==> Unflagged(s.table.byId, Doomed(s, setup, id))
  {
    var m := s.table.byId;
    PartsKnown(s, setup, id);
    CascadeLeaves(s, setup, id, now, killed, steps, t);
    StandingParts(s, setup, id);
    StartList(s, setup, id);
    var spared, doomed := Spared(s, setup, id), Doomed(s, setup, id);
    StandingAll(m, spared);
    StandingAll(m, doomed);
    StandingAll(m, s.table.order);
    if Unflagged(m, doomed) {
      StandingReturns(s, setup, id);
    }
    hide Drains, IndexOf, SpecsOf, Standing, ToStart, Doomed, Spared, Sound, Unflagged;
    SpecsLength(m, Standing(m, s.table.order));
    SpecsLength(m, Standing(m, spared));
  }

  // ----- a second failure before the first cascade is over -----

  /** The first failure, and a calm run that leads to `u`. */
  ghost predicate Leads(s: Sup, setup: Setup, id: FlowId, now: nat, killed: set<FlowId>, steps: seq<Step>, u: Sup) {
    && Fails(s, setup, id, now)
    && CalmRun(Next(s, setup, Handles(now, killed)), setup, steps)
    && u == Run(Next(s, setup, Handles(now, killed)), setup, steps)
  }

  /** Where a calm run leads when nobody older than the failed child was flagged. */
  lemma LedToRestoring(s: Sup, setup: Setup, id: FlowId, now: nat, killed: set<FlowId>, steps: seq<Step>, u: Sup)
    returns (left: seq<FlowId>, born: seq<FlowId>)
    requires Leads(s, setup, id, now, killed, steps, u)
    requires IndexOf(s.table.order, id) < |s.table.order| && Unflagged(s.table.byId, Spared(s, setup, id))
    ensures Restoring(u, s.table.byId, Spared(s, setup, id), left, born, ToStart(s, setup, id))
    ensures |left| <= |Doomed(s, setup, id)|
  {
    PartsKnown(s, setup, id);
    born := StartRestores(s, setup, id, now, killed);
    var kept := Spared(s, setup, id);
    StandingAll(s.table.byId, kept);
    hide Next, Run, CalmRun, SpecsOf, RespawnList, IndexOf, Standing, Sound, Older, Torn, Restoring;
    var kept';
    kept', left, born :=
      RunRestores(Next(s, setup, Handles(now, killed)), setup, steps, s.table.byId, kept, Doomed(s, setup, id), born,
                  ToStart(s, setup, id));
    StandingAll(s.table.byId, kept');
  }

  /** While the slot is taken, only older siblings can fail. */
  lemma TakenSlotFails(u: Sup, older: map<FlowId, LiveChild>, kept: seq<FlowId>, left: seq<FlowId>,
                       born: seq<FlowId>, respawn: seq<ChildSpec>, setup: Setup, id: FlowId)
    requires Restoring(u, older, kept, left, born, respawn) && u.cascade.Some? && !setup.strategy.OneForOne?
    requires id in u.table.byId && !u.table.byId[id].expected && Unflagged(older, kept)
    requires setup.strategy.OneForAll? ==> kept == []
    ensures |u.table.order| == |kept| + |left|
    ensures IndexOf(u.table.order, id) < |u.table.order| && Unflagged(u.table.byId, Spared(u, setup, id))
  {
    FailedIsListed(u, id);
    var order, at := u.table.order, IndexOf(u.table.order, id);
    hide Sound, SpecsOf, IndexOf;
    assert order == kept + left + [] == kept + left;
    assert order[at] == id && id !in left;
    assert at < |kept|;
    forall x | x in order[..at] ensures x in kept && x in u.table.byId && !u.table.byId[x].expected {
      var i :| 0 <= i < at && order[..at][i] == x;
      assert kept[i] == x;
    }
  }

  /** Once the slot is free, those that stand are the list before the first failure. */
  lemma FreeSlotStands(s: Sup, u: Sup, setup: Setup, id: FlowId, left: seq<FlowId>, born: seq<FlowId>)
    requires Sound(s) && id in s.table.byId && !setup.strategy.OneForOne?
    requires IndexOf(s.table.order, id) < |s.table.order| && Unflagged(s.table.byId, Spared(s, setup, id))
    requires Restoring(u, s.table.byId, Spared(s, setup, id), left, born, ToStart(s, setup, id)) && u.cascade.None?
    ensures SpecsOf(u.table.byId, Standing(u.table.byId, u.table.order)) == SpecsOf(s.table.byId, s.table.order)
  {
    hide Sound, SpecsOf, IndexOf, Standing, ToStart, Spared, Doomed, Roles, Unflagged;
    StartList(s, setup, id);
    RolesStand(u.table.byId, s.table.byId, Spared(s, setup, id), left, born);
  }

  lemma RolesStand(m: map<FlowId, LiveChild>, older: map<FlowId, LiveChild>, kept: seq<FlowId>, left: seq<FlowId>,
                   born: seq<FlowId>)
    requires Roles(m, older, kept, left, born) && Unflagged(older, kept)
    ensures SpecsOf(m, Standing(m, kept + left + born)) == SpecsOf(older, kept) + SpecsOf(m, born)
  {
    hide SpecsOf, Standing, Roles, Unflagged;
    RolesFlags(m, older, kept, left, born);
    StandingConcat(m, kept + left, born);
    StandingConcat(m, kept, left);
    NoneStands(m, left);
    StandingAll(m, kept);
    StandingAll(m, born);
    assert kept + [] + born == kept + born;
    SpecsConcat(m, kept, born);
    SpecsSame(m, older, kept);
  }

  lemma RolesFlags(m: map<FlowId, LiveChild>, older: map<FlowId, LiveChild>, kept: seq<FlowId>, left: seq<FlowId>,
                   born: seq<FlowId>)
    requires Roles(m, older, kept, left, born) && Unflagged(older, kept)
    ensures Unflagged(m, kept) && Unflagged(m, born)
    ensures forall x :: x in left && x in m ==> m[x].expected
    ensures forall x :: x in kept ==> x in m && x in older && m[x] == older[x]
    ensures forall x :: x in born ==> x in m
  {
  }

  /**
   A second unexpected exit before the exits of the first cascade have drained. The list comes
   back to what it was before the first failure if and only if, when the second one is
   handled, the slot is free and nobody torn down by it is flagged. If the slot is taken it is
   overwritten and the first failed child, at least, is never started again.
   */
  lemma SecondFailure(s: Sup, setup: Setup, id: FlowId, now: nat, killed: set<FlowId>, between: seq<Step>, u: Sup,
                      id': FlowId, now': nat, killed': set<FlowId>, steps: seq<Step>, t: Sup)
    requires Leads(s, setup, id, now, killed, between, u)
    requires IndexOf(s.table.order, id) < |s.table.order| && Unflagged(s.table.byId, Spared(s, setup, id))
    requires Drains(u, setup, id', now', killed', steps, t)
    ensures IndexOf(u.table.order, id') < |u.table.order|
    ensures SpecsOf(t.table.byId, t.table.order) == SpecsOf(s.table.byId, s.table.order)
            <==> u.cascade.None? && Unflagged(u.table.byId, Doomed(u, setup, id'))
    ensures u.cascade.Some? ==>
              && SpecsOf(t.table.byId, t.table.order) == SpecsOf(u.table.byId, u.table.order)
              && |u.table.order| < |s.table.order|
  {
    PartsKnown(s, setup, id);
    StartList(s, setup, id);
    PartsKnown(u, setup, id');
    StartList(u, setup, id');
    SparedAndDoomed(s, setup, id);
    var left, born := LedToRestoring(s, setup, id, now, killed, between, u);
    if u.cascade.Some? {
      TakenSlotFails(u, s.table.byId, Spared(s, setup, id), left, born, ToStart(s, setup, id), setup, id');
      CascadeRestoresOrder(u, setup, id', now', killed', steps, t);
    } else {
      FreeSlotStands(s, u, setup, id, left, born);
      CascadeRestoresTheStanding(u, setup, id', now', killed', steps, t);
    }
  }

  lemma SparedAndDoomed(s: Sup, setup: Setup, id: FlowId)
    requires IndexOf(s.table.order, id) < |s.table.order| && !setup.strategy.OneForOne?
    ensures |s.table.order| == |Spared(s, setup, id)| + 1 + |Doomed(s, setup, id)|
    ensures setup.strategy.OneForAll? ==> Spared(s, setup, id) == []
  {
  }

  // ----- one for one -----

  /** The table without the child at `at`, and with a new incarnation at its end if there is one. */
  ghost predicate Replaced(t: Table, at: nat, born: Option<FlowId>, t': Table)
    requires at < |t.order| && t.order[at] in t.byId
  {
    var id := t.order[at];
    match born
    case Some(next) =>
      && t'.order == t.order[..at] + t.order[at + 1..] + [next]
      && t'.byId == (t.byId - {id})[next := LiveChild(t.byId[id].spec, false)]
    case None =>
      && t'.order == t.order[..at] + t.order[at + 1..]
      && t'.byId == t.byId - {id}
  }

  /** No cascade is under way. */
  ghost predicate Steady(s: Sup) {
    Sound(s) && s.cascade.None? && forall id :: id in s.table.byId ==> !s.table.byId[id].expected
  }

  /**
   A child whose exit nobody expected leaves the table. If it is to come back, asking the
   gate costs a restart; if the gate agrees, one new live incarnation of its spec joins the
   end of the order. Its siblings keep their incarnations and their order.
   */
  lemma OneForOneReplaces(s: Sup, setup: Setup, id: FlowId, outcome: Outcome, now: nat, killed: set<FlowId>)
    requires Distinct(s.table.order) && id in s.table.order && id in s.table.byId
    requires setup.strategy.OneForOne? && !s.table.byId[id].expected
    ensures var (gate, ok) := Ask(s.gate, setup.intensity, now);
            var back := (s.table.byId[id].spec.restart, outcome) in COMES_BACK;
            var at := IndexOf(s.table.order, id);
            var after := HandleExit(s, setup, id, outcome, now, killed);
            && at < |s.table.order| && s.table.order[at] == id
            && Replaced(s.table, at, if back && ok then Some(s.nextId) else None, after.table)
            && after == s.(table := after.table,
                           gate := if back then gate else s.gate,
                           live := if back && ok then s.live + {s.nextId} else s.live,
                           nextId := if back && ok then s.nextId + 1 else s.nextId)
  {
    hide Ask;
    RestartsAre(s.table.byId[id].spec.restart, outcome);
    WithoutIndex(s.table.order, id);
    hide Without, IndexOf, Distinct, ShouldRestart;
  }

  /**
   Under every strategy an exit of a flow that is no child changes nothing, and one of a child
   that is not to come back, or is refused, takes that child out of the table and no more.
   */
  lemma OtherExitsOnlyRemove(s: Sup, setup: Setup, id: FlowId, outcome: Outcome, now: nat, killed: set<FlowId>)
    requires Distinct(s.table.order) && (id in s.table.byId <==> id in s.table.order)
    ensures id !in s.table.byId ==> HandleExit(s, setup, id, outcome, now, killed) == s
    ensures id in s.table.byId && !s.table.byId[id].expected ==>
              var (gate, ok) := Ask(s.gate, setup.intensity, now);
              var back := (s.table.byId[id].spec.restart, outcome) in COMES_BACK;
              var at := IndexOf(s.table.order, id);
              var after := HandleExit(s, setup, id, outcome, now, killed);
              && at < |s.table.order| && s.table.order[at] == id
              && (!(back && ok) ==>
                    && Replaced(s.table, at, None, after.table)
                    && after == s.(table := after.table, gate := if back then gate else s.gate))
  {
    hide Ask, StartCascade;
    if id in s.table.byId {
      RestartsAre(s.table.byId[id].spec.restart, outcome);
      WithoutIndex(s.table.order, id);
    }
    hide Without, IndexOf, Distinct, ShouldRestart, Progress;
  }

  /** After the first refusal no child is ever started again, by a restart or by a cascade. */
  lemma {:induction false} RefusalStartsNothing(s: Sup, setup: Setup, steps: seq<Step>)
    requires s.gate.exceeded
    ensures var t := Run(s, setup, steps);
            && t.gate == s.gate && t.nextId == s.nextId && t.live <= s.live
            && t.table.byId.Keys <= s.table.byId.Keys
    decreases |steps|
  {
    if steps != [] {
      RefusedStep(s, setup, steps[0]);
      RefusalStartsNothing(Next(s, setup, steps[0]), setup, steps[1..]);
    }
  }

  lemma RefusedStep(s: Sup, setup: Setup, step: Step)
    requires s.gate.exceeded
    ensures var t := Next(s, setup, step);
            && t.gate == s.gate && t.nextId == s.nextId && t.live <= s.live
            && t.table.byId.Keys <= s.table.byId.Keys
  {
    hide Without, IndexOf, ShouldRestart, StartCascade, Spawn, SpawnAll;
  }

  /** The children a step takes away for good: not to come back, or refused by the gate. */
  ghost function Lost(s: Sup, setup: Setup, step: Step): multiset<ChildSpec> {
    if step.Handles? && s.events != [] && s.events[0].0 in s.table.byId then
      var spec := s.table.byId[s.events[0].0].spec;
      if (spec.restart, s.events[0].1) in COMES_BACK && Ask(s.gate, setup.intensity, step.now).1 then multiset{}
      else multiset{spec}
    else multiset{}
  }

  ghost function LostOver(s: Sup, setup: Setup, steps: seq<Step>): multiset<ChildSpec>
    decreases |steps|
  {
    if steps == [] then multiset{} else Lost(s, setup, steps[0]) + LostOver(Next(s, setup, steps[0]), setup, steps[1..])
  }

  ghost function Children(t: Table): multiset<ChildSpec> {
    multiset(SpecsOf(t.byId, t.order))
  }

  lemma ReplacedChildren(t: Table, at: nat, born: Option<FlowId>, t': Table)
    requires at < |t.order| && t.order[at] in t.byId && Replaced(t, at, born, t') && Distinct(t.order)
    requires born.Some? ==> born.value !in t.order
    ensures var spec := t.byId[t.order[at]].spec;
            Children(t') + (if born.Some? then multiset{} else multiset{spec}) == Children(t)
  {
    hide Distinct, SpecsOf;
    var before, id, later := t.order[..at], t.order[at], t.order[at + 1..];
    var tail := if born.Some? then [born.value] else [];
    OthersStay(t, at);
    assert t.order == before + ([id] + later);
    assert t'.order == before + later + tail;
    SpecsConcat(t.byId, before, [id] + later);
    SpecsConcat(t.byId, [id], later);
    SpecsConcat(t'.byId, before + later, tail);
    SpecsConcat(t'.byId, before, later);
    SpecsSame(t.byId, t'.byId, before);
    SpecsSame(t.byId, t'.byId, later);
    OneSpec(t.byId, id);
    if born.Some? {
      OneSpec(t'.byId, born.value);
    } else {
      NoSpecs(t'.byId);
    }
  }

  lemma OthersStay(t: Table, at: nat)
    requires at < |t.order| && Distinct(t.order)
    ensures t.order[at] !in t.order[..at] && t.order[at] !in t.order[at + 1..]
  {
  }

  lemma OneSpec(m: map<FlowId, LiveChild>, id: FlowId)
    requires id in m
    ensures SpecsOf(m, [id]) == [m[id].spec]
  {
    assert SpecsOf(m, [id][1..]) == [];
  }

  /** One step under the default strategy: nothing but the lost children leaves the table. */
  lemma OneForOneStep(s: Sup, setup: Setup, step: Step)
    requires Steady(s) && setup.strategy.OneForOne?
    ensures Steady(Next(s, setup, step))
    ensures Children(Next(s, setup, step).table) + Lost(s, setup, step) == Children(s.table)
  {
    hide Ask, Children;
    match step {
      case Dies(id) => MoveSound(s, id, Completed);
      case Reports(id, outcome) => MoveSound(s, id, outcome);
      case Handles(now, killed) =>
        if s.events != [] {
          var id, outcome := s.events[0].0, s.events[0].1;
          var popped := s.(events := s.events[1..]);
          if id in s.table.byId {
            ExitKeepsChildren(s, setup, id, outcome, now, killed);
          } else {
            StaleSound(s);
          }
        }
    }
  }

  lemma ExitKeepsChildren(s: Sup, setup: Setup, id: FlowId, outcome: Outcome, now: nat, killed: set<FlowId>)
    requires Steady(s) && setup.strategy.OneForOne? && s.events != [] && s.events[0] == (id, outcome)
    requires id in s.table.byId
    ensures var after := HandleExit(s.(events := s.events[1..]), setup, id, outcome, now, killed);
            Steady(after) && Children(after.table) + Lost(s, setup, Handles(now, killed)) == Children(s.table)
  {
    hide Ask, Children, Sound, Without, IndexOf, ShouldRestart, Replaced;
    ExitIsSteady(s, setup, id, outcome, now, killed);
    SoundOrder(s);
    OneForOneReplaces(s.(events := s.events[1..]), setup, id, outcome, now, killed);
    var (gate, ok) := Ask(s.gate, setup.intensity, now);
    var born := if (s.table.byId[id].spec.restart, outcome) in COMES_BACK && ok then Some(s.nextId) else None;
    var after := HandleExit(s.(events := s.events[1..]), setup, id, outcome, now, killed);
    NewcomerIsNew(s);
    hide HandleExit;
    ReplacedChildren(s.table, IndexOf(s.table.order, id), born, after.table);
  }

  lemma NewcomerIsNew(s: Sup)
    requires Sound(s)
    ensures s.nextId !in s.table.order && s.nextId !in s.table.byId
  {
  }

  lemma ExitIsSteady(s: Sup, setup: Setup, id: FlowId, outcome: Outcome, now: nat, killed: set<FlowId>)
    requires Steady(s) && setup.strategy.OneForOne? && s.events != [] && s.events[0] == (id, outcome)
    requires id in s.table.byId
    ensures Steady(HandleExit(s.(events := s.events[1..]), setup, id, outcome, now, killed))
  {
    hide Ask, Sound, IndexOf, Without, ShouldRestart;
    RemoveSound(s, id);
    var removed := s.(events := s.events[1..], table := Remove(s.table, id));
    var (gate, ok) := Ask(s.gate, setup.intensity, now);
    GateSound(removed, gate);
    SpawnSound(removed.(gate := gate), s.table.byId[id].spec);
  }

  /**
   Over every run under the default strategy the children in the table, those with unhandled
   exits among them, are the children before but for the lost ones; while the gate agrees,
   those are the children that are not to come back.
   */
  lemma {:induction false} OneForOneKeepsChildren(s: Sup, setup: Setup, steps: seq<Step>)
    requires Steady(s) && setup.strategy.OneForOne?
    ensures Steady(Run(s, setup, steps))
    ensures Children(Run(s, setup, steps).table) + LostOver(s, setup, steps) == Children(s.table)
    decreases |steps|
  {
    hide Steady, Lost, Children, Next;
    if steps != [] {
      OneForOneStep(s, setup, steps[0]);
      OneForOneKeepsChildren(Next(s, setup, steps[0]), setup, steps[1..]);
    }
  }

  // ----- two runs of a fresh supervisor -----

  /** A supervisor without children. */
  function Fresh(): Sup {
    Sup(Table(map[], []), None, Gate([], false), {}, {}, [], 0)
  }

  lemma {:induction false} SpawnAllSound(s: Sup, specs: seq<ChildSpec>)
    requires Sound(s)
    ensures Sound(SpawnAll(s, specs))
    decreases |specs|
  {
    if specs != [] {
      SpawnSound(s, specs[0]);
      SpawnAllSound(Spawn(s, specs[0]), specs[1..]);
    }
  }

  lemma {:induction false} RunConcat(s: Sup, setup: Setup, a: seq<Step>, b: seq<Step>)
    ensures Run(s, setup, a + b) == Run(Run(s, setup, a), setup, b)
    decreases |a|
  {
    hide Next;
    if a == [] {
      assert a + b == b;
    } else {
      assert (a + b)[1..] == a[1..] + b;
      RunConcat(Next(s, setup, a[0]), setup, a[1..], b);
    }
  }

  /** A child stops, its outcome is reported and handled. */
  function Exit(id: FlowId, outcome: Outcome): seq<Step> {
    [Dies(id), Reports(id, outcome), Handles(0, {})]
  }

  lemma ExitRuns(s: Sup, setup: Setup, id: FlowId, outcome: Outcome)
    requires id in s.live && id !in s.leaving && s.events == []
    ensures Run(s, setup, Exit(id, outcome)) == HandleExit(s.(live := s.live - {id}), setup, id, outcome, 0, {})
  {
    hide HandleExit;
    var s1 := Next(s, setup, Dies(id));
    var s2 := Next(s1, setup, Reports(id, outcome));
    assert s2 == s.(live := s.live - {id}, events := [(id, outcome)]) by {
      assert s1.leaving - {id} == s.leaving;
      assert s.events + [(id, outcome)] == [(id, outcome)];
    }
    var s3 := Next(s2, setup, Handles(0, {}));
    assert s3 == HandleExit(s.(live := s.live - {id}), setup, id, outcome, 0, {}) by {
      assert s2.events[1..] == s.events;
    }
    hide Next;
    var steps := Exit(id, outcome);
    assert steps[1..] == [Reports(id, outcome), Handles(0, {})] && steps[1..][1..] == [Handles(0, {})];
    assert steps[1..][1..][1..] == [];
    assert Run(s3, setup, []) == s3;
    assert Run(s2, setup, [Handles(0, {})]) == Run(s3, setup, []);
    assert Run(s1, setup, steps[1..]) == Run(s2, setup, steps[1..][1..]);
  }

  /** The gate lets two restarts at the same instant through. */
  lemma TwoAllowed(c: Config)
    requires c.maxRestarts >= 2
    ensures Ask(Gate([], false), c, 0) == (Gate([0], false), true)
    ensures Ask(Gate([0], false), c, 0) == (Gate([0, 0], false), true)
  {
    assert [] + [0] == [0] && [0] + [0] == [0, 0];
  }

  lemma TwoSpecs(m: map<FlowId, LiveChild>, x: FlowId, y: FlowId)
    requires x in m && y in m
    ensures SpecsOf(m, [x]) == [m[x].spec] && SpecsOf(m, [x, y]) == [m[x].spec, m[y].spec]
  {
    assert [x, y][1..] == [y] && [y][1..] == [] && [x][1..] == [];
    assert SpecsOf(m, [y]) == [m[y].spec] + SpecsOf(m, []);
  }

  lemma FlagTwo(m: map<FlowId, LiveChild>, x: FlowId, y: FlowId)
    requires x in m && y in m && x != y
    ensures Flag(m, [x]) == m[x := m[x].(expected := true)]
    ensures Flag(m, [x, y]) == m[x := m[x].(expected := true)][y := m[y].(expected := true)]
  {
    assert [x, y][1..] == [y] && [y][1..] == [] && [x][1..] == [];
    var m1 := m[x := m[x].(expected := true)];
    assert Flag(m1, [y]) == Flag(m1[y := m1[y].(expected := true)], []);
  }

  lemma ThreeSpecs(m: map<FlowId, LiveChild>, x: FlowId, y: FlowId, z: FlowId)
    requires x in m && y in m && z in m
    ensures SpecsOf(m, [x, y, z]) == [m[x].spec, m[y].spec, m[z].spec]
  {
    assert [x, y, z][1..] == [y, z];
    TwoSpecs(m, y, z);
  }

  lemma StartsTwo(s: Sup, a: ChildSpec, b: ChildSpec)
    ensures SpawnAll(s, [a, b]) == Spawn(Spawn(s, a), b)
  {
    assert [a, b][1..] == [b] && [b][1..] == [];
    assert SpawnAll(Spawn(Spawn(s, a), b), []) == Spawn(Spawn(s, a), b);
    assert SpawnAll(Spawn(s, a), [b]) == SpawnAll(Spawn(Spawn(s, a), b), []);
  }

  lemma StartsThree(s: Sup, a: ChildSpec, b: ChildSpec, c: ChildSpec)
    ensures SpawnAll(s, [a, b, c]) == Spawn(Spawn(Spawn(s, a), b), c)
  {
    assert [a, b, c][1..] == [b, c];
    StartsTwo(Spawn(s, a), b, c);
  }

  // Under `OneForAll`, 0 has left the directory but not reported yet when 1 fails.

  function Couple(a: ChildSpec, b: ChildSpec): Sup {
    Sup(Table(map[0 := LiveChild(a, false), 1 := LiveChild(b, false)], [0, 1]), None, Gate([], false), {0, 1}, {}, [],
        2)
  }

  function Twins(a: ChildSpec, b: ChildSpec): Sup {
    Sup(Table(map[0 := LiveChild(a, true), 2 := LiveChild(a, false), 3 := LiveChild(b, false)], [0, 2, 3]), None,
        Gate([0], false), {2, 3}, {0}, [], 4)
  }

  function Awaiting(a: ChildSpec, b: ChildSpec): Sup {
    Sup(Table(map[0 := LiveChild(a, true), 2 := LiveChild(a, true)], [0, 2]), Some(Cascade({2}, [a, a, b])),
        Gate([0, 0], false), {2}, {0}, [], 4)
  }

  function Crowd(a: ChildSpec, b: ChildSpec): Sup {
    Sup(Table(map[0 := LiveChild(a, true), 4 := LiveChild(a, false), 5 := LiveChild(a, false),
                  6 := LiveChild(b, false)], [0, 4, 5, 6]),
        None, Gate([0, 0], false), {4, 5, 6}, {0}, [], 7)
  }

  /** The first failure: nobody is awaited, so the list is started at once, with 0 still in the table. */
  lemma FirstStart(setup: Setup, a: ChildSpec, b: ChildSpec)
    requires setup.strategy.OneForAll? && setup.intensity.maxRestarts >= 2 && !b.restart.Never?
    ensures HandleExit(Couple(a, b).(live := {}, leaving := {0}), setup, 1, Failed, 0, {}) == Twins(a, b)
  {
    var s := Couple(a, b).(live := {}, leaving := {0});
    var m := s.table.byId;
    TwoAllowed(setup.intensity);
    hide Ask;
    assert IndexOf([0, 1], 1) == 1 && Without([0, 1], 1) == [0] by {
      assert [0, 1][1..] == [1] && [1][1..] == [];
      assert Without([1], 1) == [];
    }
    assert m - {1} == map[0 := LiveChild(a, false)];
    hide IndexOf, Without, StartCascade;
    var asked := s.(table := Table(m - {1}, [0]), gate := Gate([0], false));
    assert HandleExit(s, setup, 1, Failed, 0, {}) == StartCascade(asked, setup, b, 1, [0], {});
    FirstCascade(setup, asked, a, b);
  }

  lemma FirstCascade(setup: Setup, asked: Sup, a: ChildSpec, b: ChildSpec)
    requires setup.strategy.OneForAll?
    requires asked == Couple(a, b).(live := {}, leaving := {0}, gate := Gate([0], false),
                                    table := Table(map[0 := LiveChild(a, false)], [0]))
    ensures StartCascade(asked, setup, b, 1, [0], {}) == Twins(a, b)
  {
    var m := asked.table.byId;
    TwoSpecs(m, 0, 0);
    assert RespawnList(OneForAll, b, 1, [a]) == [a, b];
    assert Flag(m, [0]) == map[0 := LiveChild(a, true)] by {
      assert [0][1..] == [];
    }
    var all := set x | x in [0];
    assert {} * all * asked.live == {} && all * (asked.live - {}) == {};
    hide Flag, SpecsOf, RespawnList;
    var u := asked.(table := Table(map[0 := LiveChild(a, true)], [0]));
    assert asked.live - {} == asked.live && asked.leaving + {} == asked.leaving;
    assert StartCascade(asked, setup, b, 1, [0], {}) == SpawnAll(u, [a, b]);
    StartsTwo(u, a, b);
    assert Spawn(Spawn(u, a), b).table.byId == Twins(a, b).table.byId;
    assert Spawn(Spawn(u, a), b).table.order == [0, 2, 3];
    assert Spawn(Spawn(u, a), b).live == {2, 3};
  }

  /** The second failure: 0 is flagged and not awaited, and its spec stands twice on the list. */
  lemma SecondStart(setup: Setup, a: ChildSpec, b: ChildSpec)
    requires setup.strategy.OneForAll? && setup.intensity.maxRestarts >= 2 && !b.restart.Never?
    ensures HandleExit(Twins(a, b).(live := {2}), setup, 3, Failed, 0, {}) == Awaiting(a, b)
  {
    var s := Twins(a, b).(live := {2});
    var m := s.table.byId - {3};
    TwoAllowed(setup.intensity);
    hide Ask;
    assert IndexOf([0, 2, 3], 3) == 2 && Without([0, 2, 3], 3) == [0, 2] by {
      assert [0, 2, 3][1..] == [2, 3] && [2, 3][1..] == [3] && [3][1..] == [];
      assert Without([3], 3) == [];
      assert IndexOf([3], 3) == 0 && IndexOf([2, 3], 3) == 1;
    }
    assert m == map[0 := LiveChild(a, true), 2 := LiveChild(a, false)];
    var asked := s.(table := Table(m, [0, 2]), gate := Gate([0, 0], false));
    TwoSpecs(m, 0, 2);
    assert RespawnList(OneForAll, b, 2, [a, a]) == [a, a, b];
    FlagTwo(m, 0, 2);
    assert m[0 := LiveChild(a, true)][2 := LiveChild(a, true)]
           == map[0 := LiveChild(a, true), 2 := LiveChild(a, true)];
    hide Flag, SpecsOf, IndexOf, Without, RespawnList;
    var all := set x | x in [0, 2];
    assert {} * all * asked.live == {} && all * (asked.live - {}) == {2};
    assert asked.live - {} == asked.live && asked.leaving + {} == asked.leaving;
  }

  /** The last awaited exit: everything on the list is started. */
  lemma ThirdStart(setup: Setup, a: ChildSpec, b: ChildSpec, outcome: Outcome)
    ensures HandleExit(Awaiting(a, b).(live := {}), setup, 2, outcome, 0, {}) == Crowd(a, b)
  {
    var s := Awaiting(a, b).(live := {});
    assert Without([0, 2], 2) == [0] by {
      assert [0, 2][1..] == [2] && [2][1..] == [];
      assert Without([2], 2) == [];
    }
    assert s.table.byId - {2} == map[0 := LiveChild(a, true)];
    assert {2} - {2} == {};
    var u := s.(table := Table(map[0 := LiveChild(a, true)], [0]), cascade := None);
    assert HandleExit(s, setup, 2, outcome, 0, {}) == SpawnAll(u, [a, a, b]);
    StartsThree(u, a, a, b);
    hide SpawnAll, HandleExit;
    assert [0] + [4] + [5] + [6] == [0, 4, 5, 6];
    assert {} + {4} + {5} + {6} == {4, 5, 6};
  }

  /** The late exit of 0 changes nothing any more. */
  lemma LateExit(setup: Setup, s: Sup, a: ChildSpec, outcome: Outcome)
    requires s.cascade.None? && 0 in s.table.byId && s.table.byId[0] == LiveChild(a, true)
    requires s.leaving == {0} && s.events == []
    ensures Run(s, setup, [Reports(0, outcome), Handles(0, {})]) == s.(leaving := {}, table := Remove(s.table, 0))
  {
    var s1 := Next(s, setup, Reports(0, outcome));
    assert s1 == s.(leaving := {}, events := [(0, outcome)]);
    var s2 := Next(s1, setup, Handles(0, {}));
    assert s1.events[1..] == [];
    var steps := [Reports(0, outcome), Handles(0, {})];
    assert steps[1..] == [Handles(0, {})] && steps[1..][1..] == [];
    hide Next, Remove;
    assert Run(s2, setup, []) == s2;
    assert Run(s1, setup, [Handles(0, {})]) == Run(s2, setup, []);
  }

  function TwiceSteps(): seq<Step> {
    ([Dies(0)] + Exit(1, Failed)) + (Exit(3, Failed) + (Exit(2, Completed) + [Reports(0, Completed), Handles(0, {})]))
  }

  lemma TwiceBegins(setup: Setup, a: ChildSpec, b: ChildSpec)
    requires setup.strategy.OneForAll? && setup.intensity.maxRestarts >= 2 && !b.restart.Never?
    ensures Run(Couple(a, b), setup, [Dies(0)] + Exit(1, Failed)) == Twins(a, b)
  {
    hide HandleExit, Exit;
    var s, s1 := Couple(a, b), Couple(a, b).(live := {1}, leaving := {0});
    assert Run(s, setup, [Dies(0)]) == s1 by {
      assert Next(s, setup, Dies(0)) == s1;
      assert [Dies(0)][1..] == [];
      assert Run(s1, setup, []) == s1;
    }
    hide Run;
    RunConcat(s, setup, [Dies(0)], Exit(1, Failed));
    ExitRuns(s1, setup, 1, Failed);
    assert s1.live - {1} == {};
    FirstStart(setup, a, b);
  }

  lemma TwiceGoesOn(setup: Setup, a: ChildSpec, b: ChildSpec)
    requires setup.strategy.OneForAll? && setup.intensity.maxRestarts >= 2 && !b.restart.Never?
    ensures Run(Twins(a, b), setup, Exit(3, Failed)) == Awaiting(a, b)
    ensures Run(Awaiting(a, b), setup, Exit(2, Completed)) == Crowd(a, b)
  {
    hide HandleExit, Run;
    ExitRuns(Twins(a, b), setup, 3, Failed);
    assert {2, 3} - {3} == {2};
    SecondStart(setup, a, b);
    ExitRuns(Awaiting(a, b), setup, 2, Completed);
    assert {2} - {2} == {};
    ThirdStart(setup, a, b, Completed);
  }

  lemma TwiceEnds(setup: Setup, a: ChildSpec, b: ChildSpec)
    ensures var t := Run(Crowd(a, b), setup, [Reports(0, Completed), Handles(0, {})]);
            && Drained(t) && t.cascade.None? && t.table.order == [4, 5, 6] && t.live == {4, 5, 6}
            && SpecsOf(t.table.byId, t.table.order) == [a, a, b]
  {
    hide SpecsOf, Run, Without;
    LateExit(setup, Crowd(a, b), a, Completed);
    FirstLeaves();
    var m := Crowd(a, b).table.byId - {0};
    var t := Crowd(a, b).(leaving := {}, table := Table(m, [4, 5, 6]));
    assert Run(Crowd(a, b), setup, [Reports(0, Completed), Handles(0, {})]) == t;
    ThreeSpecs(m, 4, 5, 6);
  }

  lemma FirstLeaves()
    ensures Without([0, 4, 5, 6], 0) == [4, 5, 6]
  {
    var order := [0, 4, 5, 6];
    assert order[1..] == [4, 5, 6];
    WithoutAbsent([4, 5, 6], 0);
  }

  /**
   A double start, from a fresh supervisor with two children under `OneForAll`. 0 has left the
   directory when 1 fails, so nobody is awaited and both are started again; 0 is still in the
   table, flagged, when the new 3 fails, and its spec goes on the list beside that of its own
   successor. When all exits have drained, `a` runs twice.
   */
  lemma LeftoverIsStartedTwice(setup: Setup, a: ChildSpec, b: ChildSpec)
    requires setup.strategy.OneForAll? && setup.intensity.maxRestarts >= 2 && !b.restart.Never?
    ensures var s := SpawnAll(Fresh(), [a, b]);
            var t := Run(s, setup, TwiceSteps());
            && Sound(s) && SpecsOf(s.table.byId, s.table.order) == [a, b]
            && Drained(t) && t.cascade.None? && t.table.order == [4, 5, 6] && t.live == {4, 5, 6}
            && SpecsOf(t.table.byId, t.table.order) == [a, a, b]
  {
    hide Sound, SpecsOf, Run, Exit, Twins, Awaiting, Crowd, Drained;
    SpawnAllSound(Fresh(), [a, b]);
    StartsTwo(Fresh(), a, b);
    assert SpawnAll(Fresh(), [a, b]) == Couple(a, b);
    TwoSpecs(Couple(a, b).table.byId, 0, 1);
    var late := [Reports(0, Completed), Handles(0, {})];
    TwiceBegins(setup, a, b);
    TwiceGoesOn(setup, a, b);
    TwiceEnds(setup, a, b);
    RunConcat(Couple(a, b), setup, [Dies(0)] + Exit(1, Failed), Exit(3, Failed) + (Exit(2, Completed) + late));
    RunConcat(Twins(a, b), setup, Exit(3, Failed), Exit(2, Completed) + late);
    RunConcat(Awaiting(a, b), setup, Exit(2, Completed), late);
  }

  // Under `RestForOne`, 0 fails while the slot awaits the exit of 2 and is to start 1 again.

  function Three(a: ChildSpec, b: ChildSpec, c: ChildSpec): Sup {
    Sup(Table(map[0 := LiveChild(a, false), 1 := LiveChild(b, false), 2 := LiveChild(c, false)], [0, 1, 2]), None,
        Gate([], false), {0, 1, 2}, {}, [], 3)
  }

  function MiddleFailed(a: ChildSpec, b: ChildSpec, c: ChildSpec): Sup {
    Sup(Table(map[0 := LiveChild(a, false), 2 := LiveChild(c, true)], [0, 2]), Some(Cascade({2}, [b, c])),
        Gate([0], false), {0, 2}, {}, [], 3)
  }

  function FirstFailed(a: ChildSpec, c: ChildSpec): Sup {
    Sup(Table(map[2 := LiveChild(c, true)], [2]), Some(Cascade({2}, [a, c])), Gate([0, 0], false), {2}, {}, [], 3)
  }

  lemma MiddleFails(setup: Setup, a: ChildSpec, b: ChildSpec, c: ChildSpec)
    requires setup.strategy.RestForOne? && setup.intensity.maxRestarts >= 2 && !b.restart.Never?
    ensures HandleExit(Three(a, b, c).(live := {0, 2}), setup, 1, Failed, 0, {}) == MiddleFailed(a, b, c)
  {
    var s := Three(a, b, c).(live := {0, 2});
    var m := s.table.byId - {1};
    TwoAllowed(setup.intensity);
    hide Ask;
    assert IndexOf([0, 1, 2], 1) == 1 && Without([0, 1, 2], 1) == [0, 2] by {
      assert [0, 1, 2][1..] == [1, 2] && [1, 2][1..] == [2] && [2][1..] == [];
      assert Without([2], 1) == [2] && Without([1, 2], 1) == [2];
    }
    assert m == map[0 := LiveChild(a, false), 2 := LiveChild(c, false)];
    assert [0, 2][1..] == [2];
    TwoSpecs(m, 2, 2);
    FlagTwo(m, 2, 0);
    assert m[2 := LiveChild(c, true)] == map[0 := LiveChild(a, false), 2 := LiveChild(c, true)];
    hide Flag, SpecsOf, IndexOf, Without;
    assert [b] + [c] == [b, c];
    var asked := s.(table := Table(m, [0, 2]), gate := Gate([0], false));
    var all := set x | x in [2];
    assert {} * all * asked.live == {} && all * (asked.live - {}) == {2};
    assert asked.live - {} == asked.live && asked.leaving + {} == asked.leaving;
  }

  lemma FirstFails(setup: Setup, a: ChildSpec, b: ChildSpec, c: ChildSpec)
    requires setup.strategy.RestForOne? && setup.intensity.maxRestarts >= 2 && !a.restart.Never?
    ensures HandleExit(MiddleFailed(a, b, c).(live := {2}), setup, 0, Failed, 0, {}) == FirstFailed(a, c)
  {
    var s := MiddleFailed(a, b, c).(live := {2});
    var m := s.table.byId - {0};
    TwoAllowed(setup.intensity);
    hide Ask;
    assert IndexOf([0, 2], 0) == 0 && Without([0, 2], 0) == [2] by {
      assert [0, 2][1..] == [2] && [2][1..] == [];
      assert Without([2], 0) == [2];
    }
    assert m == map[2 := LiveChild(c, true)];
    assert [2][0..] == [2];
    TwoSpecs(m, 2, 2);
    assert Flag(m, [2]) == m by {
      assert [2][1..] == [];
      assert m[2 := LiveChild(c, true)] == m;
    }
    hide Flag, SpecsOf, IndexOf, Without;
    assert [a] + [c] == [a, c];
    var asked := s.(table := Table(m, [2]), gate := Gate([0, 0], false));
    var all := set x | x in [2];
    assert {} * all * asked.live == {} && all * (asked.live - {}) == {2};
    assert asked.live - {} == asked.live && asked.leaving + {} == asked.leaving;
  }

  lemma LastLeaves(setup: Setup, a: ChildSpec, c: ChildSpec, outcome: Outcome)
    ensures HandleExit(FirstFailed(a, c).(live := {}), setup, 2, outcome, 0, {})
            == Sup(Table(map[3 := LiveChild(a, false), 4 := LiveChild(c, false)], [3, 4]), None,
                   Gate([0, 0], false), {3, 4}, {}, [], 5)
  {
    var s := FirstFailed(a, c).(live := {});
    assert Without([2], 2) == [] by {
      assert [2][1..] == [];
    }
    assert s.table.byId - {2} == map[];
    assert {2} - {2} == {};
    var u := s.(table := Table(map[], []), cascade := None);
    assert HandleExit(s, setup, 2, outcome, 0, {}) == SpawnAll(u, [a, c]);
    StartsTwo(u, a, c);
    hide SpawnAll, HandleExit;
    assert [] + [3] + [4] == [3, 4];
  }

  /**
   A lost child, from a fresh supervisor with three children under `RestForOne`. 1 fails and its
   restart awaits the exit of 2; then 0 fails, which overwrites the slot. When all exits have
   drained only `a` and `c` run.
   */
  lemma OverwrittenSlotLosesAChild(setup: Setup, a: ChildSpec, b: ChildSpec, c: ChildSpec)
    requires setup.strategy.RestForOne? && setup.intensity.maxRestarts >= 2 && !a.restart.Never? && !b.restart.Never?
    ensures var s := SpawnAll(Fresh(), [a, b, c]);
            var t := Run(s, setup, Exit(1, Failed) + (Exit(0, Failed) + Exit(2, Completed)));
            && Sound(s) && SpecsOf(s.table.byId, s.table.order) == [a, b, c]
            && Drained(t) && t.cascade.None? && t.table.order == [3, 4] && t.live == {3, 4}
            && SpecsOf(t.table.byId, t.table.order) == [a, c]
  {
    hide Sound, SpecsOf, Run, HandleExit, Exit;
    SpawnAllSound(Fresh(), [a, b, c]);
    StartsThree(Fresh(), a, b, c);
    assert SpawnAll(Fresh(), [a, b, c]) == Three(a, b, c);
    hide SpawnAll;
    ThreeSpecs(Three(a, b, c).table.byId, 0, 1, 2);
    RunConcat(Three(a, b, c), setup, Exit(1, Failed), Exit(0, Failed) + Exit(2, Completed));
    ExitRuns(Three(a, b, c), setup, 1, Failed);
    assert {0, 1, 2} - {1} == {0, 2};
    MiddleFails(setup, a, b, c);
    RunConcat(MiddleFailed(a, b, c), setup, Exit(0, Failed), Exit(2, Completed));
    ExitRuns(MiddleFailed(a, b, c), setup, 0, Failed);
    assert {0, 2} - {0} == {2};
    FirstFails(setup, a, b, c);
    ExitRuns(FirstFailed(a, c), setup, 2, Completed);
    assert {2} - {2} == {};
    LastLeaves(setup, a, c, Completed);
    TwoSpecs(map[3 := LiveChild(a, false), 4 := LiveChild(c, false)], 3, 4);
  }

  // ----- the supervisor object -----

  class Supervisor {
    const setup: Setup
    const gate: RestartGate
    var byId: map<FlowId, LiveChild>
    var order: seq<FlowId>
    var cascade: Option<Cascade>
    var live: set<FlowId>
    var leaving: set<FlowId>
    var events: seq<(FlowId, Outcome)>
    var nextId: FlowId

    ghost function State(): Sup
      reads this, gate
    {
      Sup(Table(byId, order), cascade, gate.State(), live, leaving, events, nextId)
    }

    ghost predicate Valid()
      reads this
    {
      gate.config == setup.intensity
    }

    constructor (setup: Setup)
      ensures Valid() && this.setup == setup && fresh(gate)
      ensures State() == Fresh()
    {
      this.setup := setup;
      gate := new RestartGate(setup.intensity);
      byId, order, cascade, live, leaving, events, nextId := map[], [], None, {}, {}, [], 0;
    }

    method RemoveChild(id: FlowId)
      modifies `byId, `order
      ensures State() == old(State()).(table := Remove(old(State()).table, id))
    {
      var kept: seq<FlowId>, i := [], 0;
      while i < |order|
        invariant 0 <= i <= |order| && order == old(order) && byId == old(byId)
        invariant kept + Without(order[i..], id) == Without(order, id)
      {
        assert order[i..][1..] == order[i + 1..];
        if order[i] != id {
          kept := kept + [order[i]];
        }
        i := i + 1;
      }
      order := kept;
      byId := byId - {id};
    }

    /** A new incarnation at the end of the start order. */
    method SpawnChild(spec: ChildSpec)
      modifies `byId, `order, `live, `nextId
      ensures State() == Spawn(old(State()), spec)
    {
      order := order + [nextId];
      byId := byId[nextId := LiveChild(spec, false)];
      live := live + {nextId};
      nextId := nextId + 1;
    }

    method Finish()
      requires Valid()
      modifies `byId, `order, `live, `nextId, `cascade
      ensures State() == FinishCascade(old(State()))
    {
      if cascade.None? {
        return;
      }
      var specs := cascade.value.specs;
      cascade := None;
      ghost var start := State();
      if gate.intensityExceeded {
        return;
      }
      var i := 0;
      while i < |specs|
        invariant 0 <= i <= |specs|
        invariant SpawnAll(State(), specs[i..]) == SpawnAll(start, specs)
      {
        assert specs[i..][1..] == specs[i + 1..];
        SpawnChild(specs[i]);
        i := i + 1;
      }
    }

    /** Flag the siblings and collect their specs. */
    method FlagSiblings(later: seq<FlowId>) returns (specs: seq<ChildSpec>)
      modifies `byId
      ensures specs == SpecsOf(old(byId), later) && byId == Flag(old(byId), later)
    {
      specs := [];
      var i := 0;
      while i < |later|
        invariant 0 <= i <= |later|
        invariant Flag(byId, later[i..]) == Flag(old(byId), later)
        invariant specs + SpecsOf(byId, later[i..]) == SpecsOf(old(byId), later)
      {
        var id := later[i];
        assert later[i..][1..] == later[i + 1..];
        if id in byId {
          specs := specs + [byId[id].spec];
          SpecsSame(byId, byId[id := byId[id].(expected := true)], later[i + 1..]);
          byId := byId[id := byId[id].(expected := true)];
        }
        i := i + 1;
      }
    }

    method Start(failed: ChildSpec, at: nat, later: seq<FlowId>, killed: set<FlowId>)
      requires Valid()
      modifies this
      ensures State() == StartCascade(old(State()), setup, failed, at, later, killed)
    {
      ghost var all := set id | id in later;
      var laterSpecs := FlagSiblings(later);
      var specs;
      match setup.strategy {
        case OneForAll =>
          var position := if at <= |laterSpecs| then at else |laterSpecs|;
          specs := laterSpecs[..position] + [failed] + laterSpecs[position..];
          assert at > |laterSpecs| ==> specs == laterSpecs + [failed];
        case RestForOne => specs := [failed] + laterSpecs;
        case OneForOne => specs := [failed];
      }
      var waiting := set id | id in later;
      cascade := Some(Cascade(waiting, specs));
      var i := 0;
      while i < |later|
        invariant 0 <= i <= |later|
        invariant byId == Flag(old(byId), later) && order == old(order) && events == old(events)
                  && nextId == old(nextId)
        invariant cascade == Some(Cascade(waiting, specs))
        invariant var dead := killed * (set id | id in later[..i]) * old(live);
                  live == old(live) - dead && leaving == old(leaving) + dead
      {
        var id := later[i];
        assert later[..i + 1] == later[..i] + [id];
        if id in live && id in killed {
          live := live - {id};
          leaving := leaving + {id};
        }
        i := i + 1;
      }
      assert later[..i] == later;
      cascade := Some(Cascade(waiting * live, specs));
      if waiting * live == {} {
        Finish();
      }
    }

    method OnCascadeProgress(id: FlowId)
      requires Valid()
      modifies this
      ensures State() == Progress(old(State()), id)
    {
      if cascade.None? {
        return;
      }
      var waiting := cascade.value.waiting - {id};
      cascade := Some(cascade.value.(waiting := waiting));
      if waiting == {} {
        Finish();
      }
    }

    method OnExit(id: FlowId, outcome: Outcome, now: nat, killed: set<FlowId>)
      requires Valid()
      modifies this, gate
      ensures State() == HandleExit(old(State()), setup, id, outcome, now, killed)
    {
      hide Progress, StartCascade, Spawn, Remove, Ask;
      if id !in byId {
        return;
      }
      var child, at := byId[id], 0;
      while at < |order| && order[at] != id
        invariant 0 <= at <= |order|
        invariant forall j :: 0 <= j < at ==> order[j] != id
      {
        at := at + 1;
      }
      assert at == IndexOf(order, id);
      RemoveChild(id);
      if child.expected {
        OnCascadeProgress(id);
        return;
      }
      if !ShouldRestart(child.spec.restart, outcome) {
        return;
      }
      if gate.intensityExceeded {
        ExceededRefuses(gate.State(), setup.intensity, now);
        return;
      }
      var hit := gate.IntensityHit(now);
      if hit {
        return;
      }
      if setup.strategy.OneForOne? {
        SpawnChild(child.spec);
      } else {
        Start(child.spec, at, LaterThan(setup.strategy, order, at), killed);
      }
    }
  }

  lemma ExceededRefuses(g: Gate, c: Config, now: nat)
    requires g.exceeded
    ensures Ask(g, c, now) == (g, false)
  {
  }
}
