/**
 Births, monitors, links and names as their callers see them (crates/byteflow/src/scheduler/{runtime,
 monitor,link,registry}.rs): when a request is refused, and what a granted one leaves.
 */
module Relations {
  import opened Wrappers
  import opened Values
  import opened MailboxSpec
  import opened Residence
  import opened Lifecycle
  import opened Exits
  import opened Steps
  import Capabilities

  /** A new flow is listed, runnable and addressable, with nothing in its registers and an empty inbox. */
  lemma SpawnedMeans(s: Snap)
    requires SnapOk(s, {}) && s.nextFlow < ID_LIMIT
    ensures var t, id := Spawned(s), s.nextFlow;
            && id !in s.directory && t.directory == s.directory + {id} && t.nextFlow == id + 1
            && id in t.core.ready && t.core.ready[id].id == id && t.core.ready[id].writes == []
            && t.core.ready[id].lastDest.None? && t.core.ready[id].pendingSend.None?
            && t.core.ready[id].pendingMessage.None?
            && id in t.core.boxes && t.core.boxes[id].queue.items == [] && t.core.boxes[id].waiting == []
            && t.core.boxes[id].parked.None? && !t.core.boxes[id].closed
            && id in t.caps.cells && (id !in s.caps.cells ==> t.caps.cells[id] == 0)
            && t.core.ready - {id} == s.core.ready - {id} && t.core.boxes - {id} == s.core.boxes - {id}
  {
    hide SnapOk;
    SpawnedOk(s);
  }

  /** A monitor is taken out by its owner alone, and nothing else changes. */
  lemma DemonitoredMeans(s: Snap, owner: FlowId, r: nat)
    ensures var (t, done) := Demonitored(s, owner, r);
            && (done.Ok? <==> r in s.monitors && s.monitors[r].owner == owner)
            && (done == Err(InvalidMonitor) <==> r !in s.monitors)
            && (done.Err? && done.error != InvalidMonitor ==> done.error == NotOwner)
            && t == s.(monitors := t.monitors) && (done.Err? ==> t == s)
            && (done.Ok? ==> r !in t.monitors && forall q :: q != r ==> (q in t.monitors <==> q in s.monitors))
            && forall q :: q in t.monitors ==> q in s.monitors && t.monitors[q] == s.monitors[q]
  {
  }

  /** Two different flows are linked once; the link is new, joins them both ways and touches no other. */
  lemma LinkedMeans(s: Snap, a: FlowId, b: FlowId)
    requires LinksOk(s.links, s.nextLink)
    ensures var (t, made) := LinkedNow(s, a, b);
            && (made == Err(SelfRelation) <==> a == b)
            && (made == Err(AlreadyLinked) <==> a != b && Linked(s.links, a, b))
            && (made.Ok? <==> a != b && !Linked(s.links, a, b))
            && t == s.(links := t.links, nextLink := t.nextLink) && (made.Err? ==> t == s)
            && (made.Ok? ==>
                  && made.value !in s.links && made.value in t.links && Joins(t.links[made.value], a, b)
                  && t.links - {made.value} == s.links && t.nextLink > made.value)
  {
    hide Linked;
    assert s.links[s.nextLink := Pair(a, b)] - {s.nextLink} == s.links;
  }

  /** A link is taken out by either end, and nothing else changes. */
  lemma UnlinkedMeans(s: Snap, owner: FlowId, l: nat)
    ensures var (t, done) := Unlinked(s, owner, l);
            && (done.Ok? <==> l in s.links && (s.links[l].a == owner || s.links[l].b == owner))
            && (done == Err(InvalidLink) <==> l !in s.links)
            && (done.Err? && done.error != InvalidLink ==> done.error == NotOwner)
            && t == s.(links := t.links) && t.links == if done.Ok? then s.links - {l} else s.links
  {
  }

  /** A name that is not empty and not taken leads to the capability and the flow it was registered with. */
  lemma NamedMeans(s: Snap, name: Name, cap: u128, flow: FlowId)
    ensures var (t, done) := Named(s, name, cap, flow);
            && (done == Err(EmptyName) <==> name == [])
            && (done == Err(AlreadyRegistered) <==> name != [] && name in s.byName)
            && (done.Ok? <==> name != [] && name !in s.byName)
            && t == s.(byName := t.byName, byFlow := t.byFlow) && (done.Err? ==> t == s)
            && (done.Ok? ==>
                  && name in t.byName && t.byName[name].cap == cap && t.byName[name].flow == flow
                  && t.byName - {name} == s.byName
                  && flow in t.byFlow && name in t.byFlow[flow] && t.byFlow - {flow} == s.byFlow - {flow})
  {
    if name !in s.byName {
      assert s.byName[name := NameEntry(cap, flow)] - {name} == s.byName;
    }
  }

  /** A name that is taken back leads nowhere, and all others lead where they did. */
  lemma UnnamedMeans(s: Snap, name: Name)
    requires NamesOk(s.byName, s.byFlow, s.directory)
    ensures var (t, known) := Unnamed(s, name);
            && (known <==> name in s.byName)
            && t == s.(byName := t.byName, byFlow := t.byFlow) && t.byName == s.byName - {name}
            && forall f, n :: f in t.byFlow && n in t.byFlow[f] <==> f in s.byFlow && n in s.byFlow[f] && n != name
  {
    hide NamesLeft;
    if name in s.byName {
      NamesWithoutOne(s.byName, s.byFlow, s.directory, name);
    } else {
      assert s.byName - {name} == s.byName;
    }
  }

  lemma NamesWithoutOne(byName: map<Name, NameEntry>, byFlow: map<FlowId, seq<Name>>, directory: set<FlowId>,
                        name: Name)
    requires NamesOk(byName, byFlow, directory) && name in byName
    ensures var f := byName[name].flow;
            && f in byFlow
            && var left := NamesLeft(byFlow[f], name);
               var after := if left == [] then byFlow - {f} else byFlow[f := left];
               forall g, n :: g in after && n in after[g] <==> g in byFlow && n in byFlow[g] && n != name
  {
    hide NamesLeft;
    var f := byName[name].flow;
    var left := NamesLeft(byFlow[f], name);
    assert forall n :: n in left <==> n in byFlow[f] && n != name;
  }
}
