/**
 Which flows one call of `finalize_flow` finalizes (crates/byteflow/src/scheduler/finalize.rs:156-266),
 exactly: those that wait when a death takes them along and that no death has made runnable before.
 */
module Fates {
  import opened Wrappers
  import opened Values
  import opened MailboxSpec
  import opened Residence
  import opened Lifecycle
  import opened Exits

  /** Why a flow was finalized and how many were before it. */
  datatype Fate = Fate(reason: Reason, turn: nat)

  ghost predicate TurnsOk(done: map<FlowId, Fate>) {
    forall f :: f in done ==> done[f].turn < |done|
  }

  function Buried(done: map<FlowId, Fate>, id: FlowId, reason: Reason): map<FlowId, Fate> {
    done[id := Fate(reason, |done|)]
  }

  lemma TurnsOkOne(done: map<FlowId, Fate>, id: FlowId, reason: Reason)
    requires TurnsOk(done) && id !in done
    ensures TurnsOk(Buried(done, id, reason))
  {
  }

  // ----- who falls -----

  /** `f` was parked, or waiting to send. */
  predicate Idle(s: Snap, f: FlowId) {
    f in s.core.place && (s.core.place[f] == Parked || s.core.place[f].WaitingIn?)
  }

  /**
   The death of `g` takes `f` along if it finds it idle: `f` was waiting to send to `g`, or is linked
   to it and `g` died for any reason but `Normal`.
   */
  ghost predicate Drags(s: Snap, done: map<FlowId, Fate>, f: FlowId, g: FlowId) {
    g in done && f in s.core.place && (s.core.place[f] == WaitingIn(g) || Hits(s.links, g, done[g].reason, f))
  }

  /** The death of `g` makes `f`, which was parked, runnable. */
  ghost predicate Saves(s: Snap, done: map<FlowId, Fate>, f: FlowId, g: FlowId) {
    g in done && f in s.core.place && s.core.place[f] == Parked && Rouses(s, f, g, done[g].reason)
  }

  /** No death up to that turn, which counts as earlier itself, has made `f` runnable. */
  ghost predicate Unsaved(s: Snap, done: map<FlowId, Fate>, f: FlowId, turn: nat) {
    forall h :: h in done && Saves(s, done, f, h) ==> turn < done[h].turn
  }

  /** Some death has found `f` idle and taken it along. */
  ghost predicate Fell(s: Snap, done: map<FlowId, Fate>, f: FlowId) {
    Idle(s, f) && exists g :: g in done && Drags(s, done, f, g) && Unsaved(s, done, f, done[g].turn)
  }

  ghost predicate Saved(s: Snap, done: map<FlowId, Fate>, f: FlowId) {
    exists g :: Saves(s, done, f, g)
  }

  /** Where the deaths so far leave a flow that is not among them. */
  ghost function PlaceNow(s: Snap, done: map<FlowId, Fate>, f: FlowId): Place
    requires f in s.core.place
  {
    if Fell(s, done, f) then Held else if Saved(s, done, f) then Ready else s.core.place[f]
  }

  ghost predicate PlacesNow(s: Snap, t: Snap, done: map<FlowId, Fate>) {
    forall f :: f in s.core.place && f !in done ==> f in t.core.place && t.core.place[f] == PlaceNow(s, done, f)
  }

  /** Only the first one, and those that fell. */
  ghost predicate OnlyFallen(s: Snap, done: map<FlowId, Fate>, root: FlowId) {
    forall f :: f in done ==> f == root || Fell(s, done, f)
  }

  // ----- one more death -----

  lemma DragsNext(s: Snap, done: map<FlowId, Fate>, id: FlowId, reason: Reason, f: FlowId, g: FlowId)
    requires id !in done
    ensures var next := Buried(done, id, reason);
            && (g != id ==> (Drags(s, next, f, g) <==> Drags(s, done, f, g)))
            && (g != id ==> (Saves(s, next, f, g) <==> Saves(s, done, f, g)))
            && (Drags(s, next, f, id)
                <==> f in s.core.place && (s.core.place[f] == WaitingIn(id) || Hits(s.links, id, reason, f)))
            && (Saves(s, next, f, id)
                <==> f in s.core.place && s.core.place[f] == Parked && Rouses(s, f, id, reason))
            && !Drags(s, done, f, id) && !Saves(s, done, f, id)
  {
    hide Hits, Rouses;
  }

  /** A death that takes `f` along stays one: all later deaths are later. */
  lemma FellStays(s: Snap, done: map<FlowId, Fate>, id: FlowId, reason: Reason, f: FlowId)
    requires Fell(s, done, f) && id !in done && TurnsOk(done)
    ensures Fell(s, Buried(done, id, reason), f)
  {
    hide Drags, Saves;
    var next := Buried(done, id, reason);
    var g: FlowId :| g in done && Drags(s, done, f, g) && Unsaved(s, done, f, done[g].turn);
    forall h | h in next && Saves(s, next, f, h) ensures next[g].turn < next[h].turn {
      DragsNext(s, done, id, reason, f, h);
    }
    DragsNext(s, done, id, reason, f, g);
    assert Unsaved(s, next, f, next[g].turn);
  }

  /** Whoever is dragged and has not been made runnable has fallen. */
  lemma DraggedFalls(s: Snap, done: map<FlowId, Fate>, f: FlowId, g: FlowId)
    requires Idle(s, f) && g in done && Drags(s, done, f, g) && !Saved(s, done, f)
    ensures Fell(s, done, f)
  {
    hide Drags, Saves;
    assert Unsaved(s, done, f, done[g].turn);
  }

  lemma SavesAreDead(s: Snap, done: map<FlowId, Fate>, f: FlowId, g: FlowId)
    ensures Saves(s, done, f, g) ==> g in done && Idle(s, f)
  {
  }

  /** Once runnable `f` does not fall any more. */
  lemma SavedStays(s: Snap, done: map<FlowId, Fate>, id: FlowId, reason: Reason, f: FlowId)
    requires !Fell(s, done, f) && Saved(s, done, f) && id !in done && TurnsOk(done)
    ensures !Fell(s, Buried(done, id, reason), f) && Saved(s, Buried(done, id, reason), f)
  {
    hide Drags, Saves;
    var next := Buried(done, id, reason);
    var h: FlowId :| Saves(s, done, f, h);
    SavesAreDead(s, done, f, h);
    DragsNext(s, done, id, reason, f, h);
    assert Saves(s, next, f, h);
    forall g | g in next ensures Drags(s, next, f, g) ==> !Unsaved(s, next, f, next[g].turn) {
      if Drags(s, next, f, g) && Unsaved(s, next, f, next[g].turn) {
        EarlierFall(s, done, id, reason, f, g, h);
      }
    }
  }

  lemma EarlierFall(s: Snap, done: map<FlowId, Fate>, id: FlowId, reason: Reason, f: FlowId, g: FlowId, h: FlowId)
    requires id !in done && TurnsOk(done) && h in done && Saves(s, done, f, h) && Idle(s, f)
    requires var next := Buried(done, id, reason);
             g in next && Drags(s, next, f, g) && Unsaved(s, next, f, next[g].turn)
    ensures Fell(s, done, f)
  {
    hide Drags, Saves;
    var next := Buried(done, id, reason);
    DragsNext(s, done, id, reason, f, h);
    DragsNext(s, done, id, reason, f, g);
    assert h in next && next[h] == done[h];
    forall k | k in done && Saves(s, done, f, k) ensures next[g].turn < done[k].turn {
      DragsNext(s, done, id, reason, f, k);
    }
    assert Unsaved(s, done, f, done[g].turn);
  }

  /** An idle flow nothing has happened to yet: the next death decides. */
  lemma UntouchedNext(s: Snap, done: map<FlowId, Fate>, id: FlowId, reason: Reason, f: FlowId)
    requires Idle(s, f) && !Fell(s, done, f) && !Saved(s, done, f) && id !in done && TurnsOk(done)
    ensures PlaceNow(s, Buried(done, id, reason), f)
            == Settled(s.core.place[f], id, Rouses(s, f, id, reason), Hits(s.links, id, reason, f))
  {
    hide Drags, Saves, Rouses, Hits;
    var next := Buried(done, id, reason);
    forall g | g in next ensures Drags(s, next, f, g) ==> g == id {
      if g in done && Drags(s, done, f, g) {
        DraggedFalls(s, done, f, g);
      }
      DragsNext(s, done, id, reason, f, g);
    }
    forall g ensures Saves(s, next, f, g) ==> g == id {
      DragsNext(s, done, id, reason, f, g);
    }
    DragsNext(s, done, id, reason, f, id);
    if Saves(s, next, f, id) {
      assert Saved(s, next, f);
      assert !Unsaved(s, next, f, next[id].turn);
    } else if Drags(s, next, f, id) {
      assert Unsaved(s, next, f, next[id].turn);
    }
  }

  lemma PlaceNowOne(s: Snap, done: map<FlowId, Fate>, id: FlowId, reason: Reason, f: FlowId)
    requires f in s.core.place && id !in done && TurnsOk(done)
    ensures PlaceNow(s, Buried(done, id, reason), f)
            == Settled(PlaceNow(s, done, f), id, Rouses(s, f, id, reason), Hits(s.links, id, reason, f))
  {
    hide Drags, Saves, Rouses, Hits;
    if !Idle(s, f) {
      NeverSaved(s, done, f);
      NeverSaved(s, Buried(done, id, reason), f);
    } else if Fell(s, done, f) {
      FellStays(s, done, id, reason, f);
    } else if Saved(s, done, f) {
      SavedStays(s, done, id, reason, f);
    } else {
      UntouchedNext(s, done, id, reason, f);
    }
  }

  lemma NeverSaved(s: Snap, done: map<FlowId, Fate>, f: FlowId)
    requires !Idle(s, f)
    ensures !Saved(s, done, f) && !Fell(s, done, f)
  {
  }
}
