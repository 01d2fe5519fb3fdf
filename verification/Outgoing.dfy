/**
 What happens to a hop before it leaves its sender (crates/byteflow/src/scheduler/worker.rs,
 `authenticate_outgoing_message` and `reissue_caps_in_value`): identity and reply address are
 assigned, and a capability in the payload is reissued to the recipient.
 */
module Outgoing {
  import opened Wrappers
  import opened Values
  import opened Authority
  import opened Capabilities

  /** Payloads nest, so a value carries at most one capability; id 0 is none. */
  function Carried(v: Value): Option<CapId>
    decreases v
  {
    match v
    case Cap(c) => if c == 0 then None else Some(c)
    case Hop(m) => Carried(m.payload)
    case _ => None
  }

  /** The same value around another capability. */
  function Carrying(v: Value, id: CapId): Value
    decreases v
  {
    match v
    case Cap(c) => if c == 0 then v else Value.Cap(id)
    case Hop(m) => Hop(m.(payload := Carrying(m.payload, id)))
    case _ => v
  }

  /** `reissue_caps_in_value`; `id` is the token the generator hands out if one is needed. */
  function ReissueIn(s: CapState, sender: FlowId, recipient: FlowId, v: Value,
                     id: CapId): Result<(CapState, Value), CapError>
    decreases v
  {
    match v
    case Cap(c) =>
      if c == 0 then Ok((s, v))
      else
        var (t, r) := Delegate(s, c, sender, recipient, id);
        var n :- r;
        Ok((t, Value.Cap(n)))
    case Hop(m) =>
      var inner :- ReissueIn(s, sender, recipient, m.payload, id);
      Ok((inner.0, Hop(m.(payload := inner.1))))
    case _ => Ok((s, v))
  }

  /** `authenticate_outgoing_message`: `rid` is the sender's next request id, `id` and `reply` fresh tokens. */
  function Authenticated(s: CapState, sender: u64, recipient: FlowId, m: Message, rid: u64, id: CapId, reply: CapId)
    : Result<(CapState, Message), CapError>
  {
    var inner :- ReissueIn(s, sender, recipient, m.payload, id);
    var (t, address) := MintOrReuse(inner.0, reply, recipient, sender, SEND);
    Ok((t, Message(sender, address, if m.requestId == 0 then rid else m.requestId, m.tag, inner.1)))
  }

  /** Wherever the capability sits in the payload, it alone is delegated and replaced. */
  lemma {:induction false} ReissueReplacesTheCapability(s: CapState, sender: FlowId, recipient: FlowId, v: Value,
                                                        id: CapId)
    ensures ReissueIn(s, sender, recipient, v, id) ==
              match Carried(v)
              case None => Ok((s, v))
              case Some(c) =>
                var (t, r) := Delegate(s, c, sender, recipient, id);
                match r case Ok(n) => Ok((t, Carrying(v, n))) case Err(e) => Err(e)
    decreases v
  {
    hide Delegate;
    match v {
      case Hop(m) =>
        ReissueReplacesTheCapability(s, sender, recipient, m.payload, id);
        assert m.(payload := m.payload) == m;
      case Cap(c) =>
        var r := Delegate(s, c, sender, recipient, id).1;
        if c != 0 && r.Ok? {
          assert Carrying(v, r.value) == Value.Cap(r.value);
        }
      case Unit => case Bool(_) => case Int(_) => case Float(_) => case Pid(_) => case Str(_) => case Bytes(_) =>
    }
  }

  lemma {:induction false} CarriesTheNew(v: Value, id: CapId)
    requires id != 0
    ensures Carried(Carrying(v, id)) == if Carried(v).Some? then Some(id) else None
    decreases v
  {
    if v.Hop? {
      CarriesTheNew(v.msg.payload, id);
    }
  }

  /** A delegation succeeds exactly for the holder of a capability on a flow, and only adds an entry. */
  lemma DelegateMeans(s: CapState, c: CapId, sender: FlowId, recipient: FlowId, id: CapId)
    requires Sane(s) && Fresh(s, id)
    ensures var (t, r) := Delegate(s, c, sender, recipient, id);
            && (r.Ok? <==> c in s.entries && s.entries[c].holder == sender && s.entries[c].cap.target.ToFlow?)
            && (r.Ok? ==> r == Ok(id) && t == Insert(s, id, recipient, s.entries[c].cap))
            && (r.Err? ==> t == s) && Sane(t)
  {
    DelegateSane(s, c, sender, recipient, id);
    hide Within, Meet, Allows, Sane;
    EntriesLive(s, c);
    AnythingHasNone();
    if c in s.entries {
      AttenuateWithItself(s.entries[c].cap);
    }
  }

  lemma DelegateSane(s: CapState, c: CapId, sender: FlowId, recipient: FlowId, id: CapId)
    requires Sane(s) && Fresh(s, id)
    ensures Sane(Delegate(s, c, sender, recipient, id).0)
  {
    hide Sane, Apply, Enabled, Delegate;
    EnabledDelegate(s, c, sender, recipient, id);
    ApplySane(s, DoDelegate(c, sender, recipient, id));
  }

  lemma EnabledDelegate(s: CapState, c: CapId, sender: FlowId, recipient: FlowId, id: CapId)
    requires Fresh(s, id)
    ensures Enabled(s, DoDelegate(c, sender, recipient, id))
    ensures Apply(s, DoDelegate(c, sender, recipient, id)) == Delegate(s, c, sender, recipient, id).0
  {
    hide Delegate;
  }

  lemma EntriesLive(s: CapState, c: CapId)
    requires Sane(s)
    ensures 0 !in s.entries
    ensures c in s.entries ==> Live(s, s.entries[c].cap) && s.entries[c].cap.mask.None?
  {
    hide Within, Has;
    if c in s.entries {
      assert EntryOk(s, s.entries[c]);
    }
  }

  lemma AnythingHasNone()
    ensures forall r: Rights :: Has(r, NONE)
  {
  }

  /**
   A hop leaves its sender exactly when it carries no capability or one the sender holds on
   a flow. It then bears the sender's own identity, whatever was written into it before, and
   a reply address the recipient can send to; tag, request id and the rest stay.
   */
  lemma OutgoingHopIsAuthentic(s: CapState, sender: u64, recipient: FlowId, m: Message, rid: u64, id: CapId,
                               reply: CapId)
    requires Sane(s) && Fresh(s, id) && Fresh(s, reply) && id != reply
    ensures var r := Authenticated(s, sender, recipient, m, rid, id, reply);
            var c := Carried(m.payload);
            && (r.Ok? <==>
                  || c.None?
                  || (&& c.value in s.entries && s.entries[c.value].holder == sender
                      && s.entries[c.value].cap.target.ToFlow?))
            && (r.Ok? ==>
                  var (t, n) := r.value;
                  && Sane(t) && n.sender == sender && n.tag == m.tag
                     && n.requestId == (if m.requestId == 0 then rid else m.requestId)
                  && n.payload == (if c.Some? then Carrying(m.payload, id) else m.payload)
                  && ReplyIsLive(t, n.replyCap, recipient, sender, SEND)
                  && (forall i :: i in s.entries ==> i in t.entries && t.entries[i] == s.entries[i]))
  {
    hide Within, Has, Sane, Delegate, ReplyIsLive, MintOrReuse, Fresh, EntryOk, Carrying;
    ReissueReplacesTheCapability(s, sender, recipient, m.payload, id);
    var c := Carried(m.payload);
    var mid := s;
    if c.Some? {
      DelegateMeans(s, c.value, sender, recipient, id);
      mid := Delegate(s, c.value, sender, recipient, id).0;
    }
    StaysFresh(s, mid, id, reply);
    ReplyMeans(mid, recipient, sender, reply);
  }

  lemma StaysFresh(s: CapState, t: CapState, id: CapId, reply: CapId)
    requires Fresh(s, id) && Fresh(s, reply) && id != reply
    requires t == s || exists h, cap :: t == Insert(s, id, h, cap)
    ensures Fresh(t, reply) && forall i :: i in s.entries ==> i in t.entries && t.entries[i] == s.entries[i]
  {
  }

  lemma ReplyMeans(s: CapState, holder: FlowId, target: FlowId, reply: CapId)
    requires Sane(s) && Fresh(s, reply)
    ensures var (t, a) := MintOrReuse(s, reply, holder, target, SEND);
            && Sane(t) && ReplyIsLive(t, a, holder, target, SEND)
            && forall i :: i in s.entries ==> i in t.entries && t.entries[i] == s.entries[i]
  {
    hide Within, Has, EntryOk;
    RightsBasics();
    ReplySane(s, reply, holder, target);
    CachedReplyIsReused(s, reply, holder, target);
    if (holder, target) !in s.replies {
      MintSane(s, reply, holder, target, SEND);
    }
  }

  /** The reissued capability is the recipient's, on the same flow, with the same rights; the sender keeps its own. */
  lemma CarriedCapabilityIsTheRecipients(s: CapState, sender: u64, recipient: FlowId, m: Message, rid: u64,
                                         id: CapId, reply: CapId)
    requires Sane(s) && Fresh(s, id) && Fresh(s, reply) && id != reply
    requires Carried(m.payload).Some? && Authenticated(s, sender, recipient, m, rid, id, reply).Ok?
    ensures var (t, n) := Authenticated(s, sender, recipient, m, rid, id, reply).value;
            var c := Carried(m.payload).value;
            && Carried(n.payload) == Some(id) && c in s.entries && id in t.entries && c in t.entries
            && t.entries[id] == Entry(recipient, s.entries[c].cap) && t.entries[c] == s.entries[c]
  {
    hide Within, Has, Sane, Delegate, MintOrReuse, EntryOk, ReplyIsLive;
    ReissueReplacesTheCapability(s, sender, recipient, m.payload, id);
    var c := Carried(m.payload).value;
    DelegateMeans(s, c, sender, recipient, id);
    CarriesTheNew(m.payload, id);
    var mid := Delegate(s, c, sender, recipient, id).0;
    StaysFresh(s, mid, id, reply);
    ReplyMeans(mid, recipient, sender, reply);
  }
}
