/** internal/engine/server.go: which session a connect, write, detach or close frame
    reaches, whatever order they come in. A step is what the server does under one
    hold of its lock; a close takes several. */
module Claims {
  import opened GoStrings
  import opened IrcLine
  import opened Buffer
  import opened SessionSpec

  datatype LinkRec = LinkRec(instance: string, gen: int)

  datatype Rec = Rec(key: string, fp: string, s: State)

  /** Every session there ever was, by number; the two indexes; the links; the
      sessions an accepted close is about to end. */
  datatype Registry = Registry(
    heap: seq<Rec>, sessions: map<string, nat>, byHandle: map<string, nat>,
    links: map<Link, LinkRec>, closing: set<nat>)

  const EMPTY := Registry([], map[], map[], map[], {})

  function Key(instance: string, id: string): string { instance + "\0" + id }

  // --- Frames ---

  predicate Known(v: Registry, sid: nat) { sid < |v.heap| }

  function SetState(v: Registry, sid: nat, s: State): Registry
    requires Known(v, sid)
  {
    v.(heap := v.heap[sid := v.heap[sid].(s := s)])
  }

  /** The handles of session sid leave the index. */
  function Without(byHandle: map<string, nat>, handles: seq<string>, sid: nat): map<string, nat> {
    map h | h in byHandle && !(h in handles && byHandle[h] == sid) :: byHandle[h]
  }

  /** forgetLocked. */
  function Forget(v: Registry, sid: nat): Registry
    requires Known(v, sid)
  {
    var r := v.heap[sid];
    SetState(v, sid, r.s.(buf := [])).(
      sessions := if r.key in v.sessions && v.sessions[r.key] == sid then v.sessions - {r.key} else v.sessions,
      byHandle := Without(v.byHandle, r.s.handles, sid))
  }

  function Fresh(v: Registry, l: Link, key: string, handle: string, fp: string): Registry {
    v.(heap := v.heap + [Rec(key, fp, New(l, handle))],
       sessions := v.sessions[key := |v.heap|], byHandle := v.byHandle[handle := |v.heap|])
  }

  function Reattach(v: Registry, l: Link, sid: nat, handle: string): Registry
    requires Known(v, sid)
  {
    var s := v.heap[sid].s;
    SetState(v, sid, Attach(s, l, handle)).(
      byHandle := Without(v.byHandle, [s.handle], sid)[handle := sid])
  }

  function Release(s: State): State { if s.link.Some? then Detach(s, s.link.value) else s }

  function Replace(v: Registry, sid: nat): Registry
    requires Known(v, sid)
  {
    Forget(SetState(v, sid, Shutdown(Release(v.heap[sid].s), "replaced by a new connection")), sid)
  }

  /** A newer process holds session sid, so link l must not take it. */
  predicate HeldByNewer(v: Registry, l: Link, sid: nat) {
    Known(v, sid) && l in v.links &&
    match v.heap[sid].s.link
    case None => false
    case Some(holder) => holder != l && holder in v.links && v.links[holder].gen > v.links[l].gen
  }

  /** A connect that picks up the socket session sid holds. */
  predicate Reattaches(v: Registry, l: Link, id: string, handle: string, fp: string, sid: nat) {
    && id != "" && handle != "" && handle !in v.byHandle && l in v.links
    && Key(v.links[l].instance, id) in v.sessions && v.sessions[Key(v.links[l].instance, id)] == sid
    && Known(v, sid) && !HeldByNewer(v, l, sid)
    && Reusable(v.heap[sid].s) && v.heap[sid].fp == fp
  }

  /** handleConnect. */
  function Connect(v: Registry, l: Link, id: string, handle: string, fp: string): Registry
    requires l in v.links && forall k :: k in v.sessions ==> Known(v, v.sessions[k])
  {
    var key := Key(v.links[l].instance, id);
    if id == "" || handle == "" || handle in v.byHandle then v
    else if key !in v.sessions then Fresh(v, l, key, handle, fp)
    else
      var sid := v.sessions[key];
      if HeldByNewer(v, l, sid) then v
      else if Reusable(v.heap[sid].s) && v.heap[sid].fp == fp then Reattach(v, l, sid, handle)
      else Fresh(Replace(v, sid), l, key, handle, fp)
  }

  /** What handleWrite asks of the session it looked up, before the line is queued. */
  predicate WriteAllowed(v: Registry, l: Link, handle: string, sid: nat) {
    Known(v, sid) && var s := v.heap[sid].s; s.handle == handle && s.link == Some(l) && s.conn.Open?
  }

  /** A link lets go of session sid; one that is closed is forgotten with it. */
  function LetGo(v: Registry, l: Link, sid: nat): Registry
    requires Known(v, sid)
  {
    var s := v.heap[sid].s;
    if s.link != Some(l) then v
    else
      var u := SetState(v, sid, Detach(s, l));
      if s.conn.Closed? then Forget(u, sid) else u
  }

  /** handleDetach. */
  function DetachFrame(v: Registry, l: Link, handle: string): Registry {
    if handle in v.byHandle && Known(v, v.byHandle[handle]) && v.heap[v.byHandle[handle]].s.handle == handle
    then LetGo(v, l, v.byHandle[handle]) else v
  }

  /** link.close, for the sessions it held. */
  function DropAll(v: Registry, l: Link, held: seq<nat>): Registry
    decreases |held|
  {
    if held == [] then v
    else DropAll(if Known(v, held[0]) then LetGo(v, l, held[0]) else v, l, held[1..])
  }

  predicate CloseAccepted(v: Registry, l: Link, id: string, handle: string, sid: nat) {
    l in v.links && Key(v.links[l].instance, id) in v.sessions && v.sessions[Key(v.links[l].instance, id)] == sid
    && Known(v, sid) && CloseAllowed(v.heap[sid].s, handle, l)
  }

  /** handleClose, while it holds the server's lock. */
  function CloseFrame(v: Registry, l: Link, id: string, handle: string): Registry
    requires l in v.links
  {
    var key := Key(v.links[l].instance, id);
    if key in v.sessions && CloseAccepted(v, l, id, handle, v.sessions[key]) then
      var sid := v.sessions[key];
      SetState(v, sid, RequestClose(v.heap[sid].s, l)).(closing := v.closing + {sid})
    else v
  }

  // --- Steps ---

  /** What a session does on its own, under its own lock. */
  datatype Local =
    | Dialed
    | Ended(reason: string)
    | Came(raw: string, at: int, cap: nat)
    | Shed
    | Pulled(limit: nat)
    | Acked(handle: string, n: nat)

  function Apply(s: State, op: Local): State {
    match op
    case Dialed => DialOk(s)
    case Ended(reason) => Shutdown(s, reason)
    case Came(raw, at, cap) => Ingest(s, raw, at, cap)
    case Shed => ShedOldest(s)
    case Pulled(limit) => if s.link.Some? then Pull(s, limit) else s
    case Acked(handle, n) => Ack(s, handle, n)
  }

  datatype Event =
    | Hello(l: Link, instance: string, gen: int)
    | ConnectCame(l: Link, id: string, handle: string, fp: string)
    | DetachCame(l: Link, handle: string)
    | CloseCame(l: Link, id: string, handle: string)
    | CloseEnds(sid: nat)
    | LinkGone(l: Link, held: seq<nat>)
    | Forgotten(sid: nat)
    | OnItsOwn(sid: nat, op: Local)

  /** A session is only ever forgotten once it is closed: by release when nobody holds
      it, by the writer that sent its closed frame, or by the close that ended it. */
  ghost predicate CanHappen(v: Registry, e: Event) {
    match e
    case Hello(l, instance, _) => l !in v.links && instance != "" && '\0' !in instance
    case ConnectCame(l, _, _, _) => l in v.links && forall k :: k in v.sessions ==> Known(v, v.sessions[k])
    case DetachCame(l, _) => l in v.links
    case CloseCame(l, _, _) => l in v.links
    case CloseEnds(sid) => sid in v.closing && Known(v, sid)
    case LinkGone(l, _) => l in v.links
    case Forgotten(sid) => Known(v, sid) && v.heap[sid].s.conn.Closed?
    case OnItsOwn(sid, _) => Known(v, sid)
  }

  ghost function Happen(v: Registry, e: Event): Registry
    requires CanHappen(v, e)
  {
    match e
    case Hello(l, instance, gen) => v.(links := v.links[l := LinkRec(instance, gen)])
    case ConnectCame(l, id, handle, fp) => Connect(v, l, id, handle, fp)
    case DetachCame(l, handle) => DetachFrame(v, l, handle)
    case CloseCame(l, id, handle) => CloseFrame(v, l, id, handle)
    case CloseEnds(sid) => SetState(v, sid, Shutdown(v.heap[sid].s, "closed by stugan"))
    case LinkGone(l, held) => DropAll(v, l, held)
    case Forgotten(sid) => Forget(v, sid)
    case OnItsOwn(sid, op) => SetState(v, sid, Apply(v.heap[sid].s, op))
  }

  ghost predicate CanRun(v: Registry, events: seq<Event>)
    decreases |events|
  {
    events == [] || (CanHappen(v, events[0]) && CanRun(Happen(v, events[0]), events[1..]))
  }

  ghost function RunAll(v: Registry, events: seq<Event>): Registry
    requires CanRun(v, events)
    decreases |events|
  {
    if events == [] then v else RunAll(Happen(v, events[0]), events[1..])
  }

  // --- The indexes are exact ---

  /** Session sid is the one its key leads to. */
  predicate Alive(v: Registry, sid: nat) {
    Known(v, sid) && v.heap[sid].key in v.sessions && v.sessions[v.heap[sid].key] == sid
  }

  predicate Indexed(v: Registry, sid: nat) {
    Known(v, sid) && var h := v.heap[sid].s.handle; h in v.byHandle && v.byHandle[h] == sid
  }

  predicate RecOk(v: Registry, sid: nat) {
    Known(v, sid) && var s := v.heap[sid].s;
    && s.handle in s.handles
    && (s.link.Some? ==> s.link.value in v.links)
    && (Alive(v, sid) <==> Indexed(v, sid))
    && (!Alive(v, sid) ==> s.conn.Closed?)
  }

  predicate KeyOk(v: Registry, k: string)
    requires k in v.sessions
  {
    Known(v, v.sessions[k]) && v.heap[v.sessions[k]].key == k
  }

  predicate HandleOk(v: Registry, h: string)
    requires h in v.byHandle
  {
    Known(v, v.byHandle[h]) && v.heap[v.byHandle[h]].s.handle == h
  }

  ghost predicate ClaimsInv(v: Registry) {
    && (forall k :: k in v.sessions ==> KeyOk(v, k))
    && (forall h :: h in v.byHandle ==> HandleOk(v, h))
    && (forall sid: nat :: sid < |v.heap| ==> RecOk(v, sid))
  }

  lemma SetKeeps(v: Registry, sid: nat, s: State)
    requires ClaimsInv(v) && Known(v, sid)
    requires var was := v.heap[sid].s;
             s.handle == was.handle && s.handles == was.handles
             && (s.link.Some? ==> s.link.value in v.links) && (was.conn.Closed? ==> s.conn.Closed?)
    ensures ClaimsInv(SetState(v, sid, s))
  {
    var u := SetState(v, sid, s);
    forall k | k in u.sessions
      ensures KeyOk(u, k)
    {
      assert KeyOk(v, k);
    }
    forall h | h in u.byHandle
      ensures HandleOk(u, h)
    {
      assert HandleOk(v, h);
    }
    forall i: nat | i < |u.heap|
      ensures RecOk(u, i)
    {
      assert RecOk(v, i);
    }
  }

  lemma ForgetKeeps(v: Registry, sid: nat)
    requires ClaimsInv(v) && Known(v, sid) && v.heap[sid].s.conn.Closed?
    ensures ClaimsInv(Forget(v, sid)) && !Alive(Forget(v, sid), sid)
  {
    var u := Forget(v, sid);
    assert RecOk(v, sid);
    forall k | k in u.sessions
      ensures KeyOk(u, k)
    {
      assert KeyOk(v, k);
    }
    forall h | h in u.byHandle
      ensures HandleOk(u, h) && u.byHandle[h] != sid
    {
      assert HandleOk(v, h);
    }
    forall i: nat | i < |u.heap|
      ensures RecOk(u, i)
    {
      assert RecOk(v, i);
    }
  }

  lemma FreshKeeps(v: Registry, l: Link, key: string, handle: string, fp: string)
    requires ClaimsInv(v) && key !in v.sessions && handle !in v.byHandle && l in v.links
    ensures ClaimsInv(Fresh(v, l, key, handle, fp))
  {
    var u := Fresh(v, l, key, handle, fp);
    assert u.heap[|v.heap|].s.handles == [handle];
    forall k | k in u.sessions
      ensures KeyOk(u, k)
    {
      assert k in v.sessions ==> KeyOk(v, k);
    }
    forall h | h in u.byHandle
      ensures HandleOk(u, h)
    {
      assert h in v.byHandle ==> HandleOk(v, h);
    }
    forall i: nat | i < |u.heap|
      ensures RecOk(u, i)
    {
      if i < |v.heap| {
        assert RecOk(v, i);
        OldStays(v, u, i, key, handle);
      }
    }
  }

  lemma OldStays(v: Registry, u: Registry, i: nat, key: string, handle: string)
    requires ClaimsInv(v) && i < |v.heap| && v.heap <= u.heap
    requires key !in v.sessions && u.sessions == v.sessions[key := |v.heap|]
    requires handle !in v.byHandle && u.byHandle == v.byHandle[handle := |v.heap|]
    ensures Alive(u, i) <==> Alive(v, i)
    ensures Indexed(u, i) <==> Indexed(v, i)
  {
    assert u.heap[i] == v.heap[i];
  }

  lemma RecentKeepsLast(handles: seq<string>, handle: string)
    ensures handle in Recent(handles + [handle])
  {
    var all := handles + [handle];
    assert all[|all| - 1] == handle;
    if |all| > RECENT_HANDLES {
      assert Recent(all)[RECENT_HANDLES - 1] == handle;
    }
  }

  lemma ReattachKeeps(v: Registry, l: Link, sid: nat, handle: string)
    requires ClaimsInv(v) && Alive(v, sid) && handle !in v.byHandle && l in v.links
    ensures ClaimsInv(Reattach(v, l, sid, handle))
  {
    var u, was := Reattach(v, l, sid, handle), v.heap[sid].s;
    RecentKeepsLast(was.handles, handle);
    hide Attach, Recent;
    AttachShape(was, l, handle);
    assert RecOk(v, sid);
    forall k | k in u.sessions
      ensures KeyOk(u, k)
    {
      assert KeyOk(v, k);
    }
    forall h | h in u.byHandle
      ensures HandleOk(u, h)
    {
      assert h != handle ==> HandleOk(v, h);
    }
    forall i: nat | i < |u.heap|
      ensures RecOk(u, i)
    {
      assert RecOk(v, i);
      if i != sid {
        assert u.heap[i] == v.heap[i];
      }
    }
  }

  lemma AttachShape(s: State, l: Link, handle: string)
    ensures var t := Attach(s, l, handle);
            t.handle == handle && t.handles == Recent(s.handles + [handle]) && t.link == Some(l) && t.conn == s.conn
            && t.finished == s.finished && t.closeErr == s.closeErr && t.buf == s.buf
  {}

  /** No step but an attach touches a session's handles, and no socket opens twice. */
  lemma ApplyShape(s: State, op: Local)
    ensures var t := Apply(s, op);
            t.handle == s.handle && t.handles == s.handles && t.link == s.link && (s.conn.Closed? ==> t.conn.Closed?)
  {
    match op
    case Came(raw, at, cap) =>
      match Classify(raw) {
        case Relayed(line) => if s.conn.Open? { ShedShape(Append(s, line, raw, at), cap); }
        case _ =>
      }
    case _ => hide Above, Batch, ClosesNow, SentAfter;
  }

  lemma {:induction false} ShedShape(s: State, cap: nat)
    ensures var t := ShedOver(s, cap);
            t.handle == s.handle && t.handles == s.handles && t.link == s.link && t.conn == s.conn
    decreases |s.buf|
  {
    if Cost(s.buf) > cap && |s.buf| > 1 {
      ShedShape(DropOldest(s), cap);
    }
  }

  lemma ReplaceKeeps(v: Registry, sid: nat)
    requires ClaimsInv(v) && Alive(v, sid)
    ensures ClaimsInv(Replace(v, sid))
    ensures Replace(v, sid).sessions == v.sessions - {v.heap[sid].key}
    ensures Replace(v, sid).byHandle.Keys <= v.byHandle.Keys && Replace(v, sid).links == v.links
  {
    var s := Shutdown(Release(v.heap[sid].s), "replaced by a new connection");
    assert RecOk(v, sid);
    SetKeeps(v, sid, s);
    ForgetKeeps(SetState(v, sid, s), sid);
  }

  lemma ConnectKeeps(v: Registry, l: Link, id: string, handle: string, fp: string)
    requires ClaimsInv(v) && l in v.links
    ensures forall k :: k in v.sessions ==> Known(v, v.sessions[k])
    ensures ClaimsInv(Connect(v, l, id, handle, fp))
  {
    hide Reusable, Reattach, Replace, Fresh, HeldByNewer;
    var key := Key(v.links[l].instance, id);
    assert forall k :: k in v.sessions ==> KeyOk(v, k);
    if id != "" && handle != "" && handle !in v.byHandle {
      if key !in v.sessions {
        FreshKeeps(v, l, key, handle, fp);
      } else {
        var sid := v.sessions[key];
        ReattachKeeps(v, l, sid, handle);
        ReplaceKeeps(v, sid);
        FreshKeeps(Replace(v, sid), l, key, handle, fp);
      }
    }
  }

  lemma LetGoKeeps(v: Registry, l: Link, sid: nat)
    requires ClaimsInv(v) && Known(v, sid)
    ensures ClaimsInv(LetGo(v, l, sid)) && |LetGo(v, l, sid).heap| == |v.heap|
  {
    var s := v.heap[sid].s;
    if s.link == Some(l) {
      SetKeeps(v, sid, Detach(s, l));
      if s.conn.Closed? {
        ForgetKeeps(SetState(v, sid, Detach(s, l)), sid);
      }
    }
  }

  lemma {:induction false} DropAllKeeps(v: Registry, l: Link, held: seq<nat>)
    requires ClaimsInv(v)
    ensures ClaimsInv(DropAll(v, l, held))
    decreases |held|
  {
    hide LetGo, ClaimsInv;
    if held != [] {
      if Known(v, held[0]) {
        LetGoKeeps(v, l, held[0]);
        DropAllKeeps(LetGo(v, l, held[0]), l, held[1..]);
      } else {
        DropAllKeeps(v, l, held[1..]);
      }
    }
  }

  lemma StepKeeps(v: Registry, e: Event)
    requires ClaimsInv(v) && CanHappen(v, e)
    ensures ClaimsInv(Happen(v, e))
  {
    match e
    case Hello(_, _, _) => SameIndexes(v, Happen(v, e));
    case ConnectCame(l, id, handle, fp) => hide *; CameToConnect(v, e); ConnectKeeps(v, l, id, handle, fp);
    case DetachCame(l, handle) =>
      if handle in v.byHandle && Known(v, v.byHandle[handle]) { LetGoKeeps(v, l, v.byHandle[handle]); }
    case CloseCame(l, id, handle) => CloseKeeps(v, l, id, handle);
    case CloseEnds(sid) => EndKeeps(v, sid, Shutdown(v.heap[sid].s, "closed by stugan"));
    case LinkGone(l, held) => DropAllKeeps(v, l, held);
    case Forgotten(sid) => ForgetKeeps(v, sid);
    case OnItsOwn(sid, op) => ApplyShape(v.heap[sid].s, op); EndKeeps(v, sid, Apply(v.heap[sid].s, op));
  }

  lemma CameToConnect(v: Registry, e: Event)
    requires CanHappen(v, e) && e.ConnectCame?
    ensures e.l in v.links && (forall k :: k in v.sessions ==> Known(v, v.sessions[k]))
    ensures Happen(v, e) == Connect(v, e.l, e.id, e.handle, e.fp)
  {}

  lemma EndKeeps(v: Registry, sid: nat, s: State)
    requires ClaimsInv(v) && Known(v, sid)
    requires var was := v.heap[sid].s;
             s.handle == was.handle && s.handles == was.handles && s.link == was.link
             && (was.conn.Closed? ==> s.conn.Closed?)
    ensures ClaimsInv(SetState(v, sid, s))
  {
    assert RecOk(v, sid);
    SetKeeps(v, sid, s);
  }

  lemma SameIndexes(v: Registry, u: Registry)
    requires ClaimsInv(v) && u == v.(links := u.links, closing := u.closing)
      && forall l :: l in v.links ==> l in u.links
    ensures ClaimsInv(u)
  {
    forall k | k in u.sessions
      ensures KeyOk(u, k)
    {
      assert KeyOk(v, k);
    }
    forall h | h in u.byHandle
      ensures HandleOk(u, h)
    {
      assert HandleOk(v, h);
    }
    forall i: nat | i < |u.heap|
      ensures RecOk(u, i)
    {
      assert RecOk(v, i);
    }
  }

  lemma CloseKeeps(v: Registry, l: Link, id: string, handle: string)
    requires ClaimsInv(v) && l in v.links
    ensures ClaimsInv(CloseFrame(v, l, id, handle))
  {
    var key := Key(v.links[l].instance, id);
    if key in v.sessions && CloseAccepted(v, l, id, handle, v.sessions[key]) {
      var sid := v.sessions[key];
      var s := RequestClose(v.heap[sid].s, l);
      assert RecOk(v, sid);
      SetKeeps(v, sid, s);
      SameIndexes(SetState(v, sid, s), CloseFrame(v, l, id, handle));
    }
  }

  lemma {:induction false} RunKeeps(v: Registry, events: seq<Event>)
    requires ClaimsInv(v) && CanRun(v, events)
    ensures ClaimsInv(RunAll(v, events))
    decreases |events|
  {
    hide ClaimsInv, Happen, CanHappen;
    if events != [] {
      StepKeeps(v, events[0]);
      RunKeeps(Happen(v, events[0]), events[1..]);
    }
  }

  // --- The theorems ---

  /** After every run the handle index is injective and holds exactly the current
      handle of each session its key leads to, and whatever is not in it is closed. */
  lemma IndexesAreExact(events: seq<Event>)
    requires CanRun(EMPTY, events)
    ensures var v := RunAll(EMPTY, events);
            && (forall k :: k in v.sessions ==>
                  && v.sessions[k] < |v.heap| && v.heap[v.sessions[k]].key == k
                  && v.heap[v.sessions[k]].s.handle in v.byHandle
                  && v.byHandle[v.heap[v.sessions[k]].s.handle] == v.sessions[k])
            && (forall h :: h in v.byHandle ==>
                  && v.byHandle[h] < |v.heap| && v.heap[v.byHandle[h]].s.handle == h
                  && v.heap[v.byHandle[h]].key in v.sessions && v.sessions[v.heap[v.byHandle[h]].key] == v.byHandle[h])
            && (forall g, h :: g in v.byHandle && h in v.byHandle && v.byHandle[g] == v.byHandle[h] ==> g == h)
            && (forall sid: nat :: sid < |v.heap| && sid !in v.byHandle.Values ==> v.heap[sid].s.conn.Closed?)
  {
    RunKeeps(EMPTY, events);
    var v := RunAll(EMPTY, events);
    hide RunAll;
    ExactFromInv(v);
  }

  lemma ExactFromInv(v: Registry)
    requires ClaimsInv(v)
    ensures forall k :: k in v.sessions ==>
              && v.sessions[k] < |v.heap| && v.heap[v.sessions[k]].key == k
              && v.heap[v.sessions[k]].s.handle in v.byHandle
              && v.byHandle[v.heap[v.sessions[k]].s.handle] == v.sessions[k]
    ensures forall h :: h in v.byHandle ==>
              && v.byHandle[h] < |v.heap| && v.heap[v.byHandle[h]].s.handle == h
              && v.heap[v.byHandle[h]].key in v.sessions && v.sessions[v.heap[v.byHandle[h]].key] == v.byHandle[h]
    ensures forall sid: nat :: sid < |v.heap| && sid !in v.byHandle.Values ==> v.heap[sid].s.conn.Closed?
  {
    forall k | k in v.sessions
      ensures KeyOk(v, k) && RecOk(v, v.sessions[k])
    {}
    forall h | h in v.byHandle
      ensures HandleOk(v, h) && RecOk(v, v.byHandle[h])
    {}
    forall sid: nat | sid < |v.heap| && sid !in v.byHandle.Values
      ensures v.heap[sid].s.conn.Closed?
    {
      assert RecOk(v, sid);
      assert !Indexed(v, sid);
    }
  }

  /** A detach or close frame changes no session but the one whose current handle it
      carries, and that one only for the link that holds it (or, for a close, while
      nobody does). */
  lemma SupersededIsPowerless(v: Registry, e: Event, sid: nat)
    requires ClaimsInv(v) && CanHappen(v, e) && (e.DetachCame? || e.CloseCame?) && Known(v, sid)
    ensures var u := Happen(v, e);
            && |u.heap| == |v.heap|
            && (u.heap[sid] != v.heap[sid] ==>
                  && v.heap[sid].s.handle == e.handle
                  && (v.heap[sid].s.link == Some(e.l) || (e.CloseCame? && v.heap[sid].s.link == None)))
            && (forall h :: h in v.byHandle && h != e.handle ==> h in u.byHandle && u.byHandle[h] == v.byHandle[h])
  {
    assert forall h :: h in v.byHandle ==> HandleOk(v, h);
  }

  /** A write gets through only to the one session its handle stands for, and only from
      the link that holds it, however stale the lookup that led to it. */
  lemma WritesReachTheHolder(v: Registry, l: Link, handle: string, sid: nat)
    requires ClaimsInv(v) && WriteAllowed(v, l, handle, sid)
    ensures handle in v.byHandle && v.byHandle[handle] == sid
    ensures forall other, h :: WriteAllowed(v, l, h, other) && other != sid ==> h != handle
  {
    assert RecOk(v, sid);
    forall other, h | WriteAllowed(v, l, h, other) && other != sid
      ensures h != handle
    {
      assert RecOk(v, other);
    }
  }

  /** Whoever holds a session keeps it until it lets go itself, or a connect of a link
      at least as new comes. */
  lemma OnlyNewerDisplace(v: Registry, e: Event, sid: nat, holder: Link)
    requires ClaimsInv(v) && CanHappen(v, e) && Known(v, sid) && v.heap[sid].s.link == Some(holder)
    ensures sid < |Happen(v, e).heap|
    ensures Happen(v, e).heap[sid].s.link != Some(holder) ==>
      || ((e.DetachCame? || e.CloseCame? || e.LinkGone?) && e.l == holder)
      || (e.ConnectCame? && holder in v.links && e.l in v.links && v.links[e.l].gen >= v.links[holder].gen)
  {
    hide Connect, DropAll, Without, Apply;
    assert RecOk(v, sid);
    match e
    case LinkGone(l, held) => DropAllSpares(v, l, held, sid);
    case OnItsOwn(i, op) => ApplyShape(v.heap[i].s, op);
    case ConnectCame(l, id, handle, fp) =>
      ConnectDisplaces(v, l, id, handle, fp, sid);
    case _ =>
  }

  lemma ConnectDisplaces(v: Registry, l: Link, id: string, handle: string, fp: string, sid: nat)
    requires ClaimsInv(v) && l in v.links && Known(v, sid) && (forall k :: k in v.sessions ==> Known(v, v.sessions[k]))
    ensures sid < |Connect(v, l, id, handle, fp).heap|
    ensures Connect(v, l, id, handle, fp).heap[sid].s.link != v.heap[sid].s.link ==> !HeldByNewer(v, l, sid)
  {
    hide Attach, Recent, Reusable;
  }

  lemma {:induction false} DropAllSpares(v: Registry, l: Link, held: seq<nat>, sid: nat)
    requires Known(v, sid)
    ensures |DropAll(v, l, held).heap| == |v.heap|
    ensures v.heap[sid].s.link != Some(l) ==> DropAll(v, l, held).heap[sid] == v.heap[sid]
    ensures DropAll(v, l, held).heap[sid].s.handle == v.heap[sid].s.handle
    decreases |held|
  {
    if held != [] {
      var u := if Known(v, held[0]) then LetGo(v, l, held[0]) else v;
      DropAllSpares(u, l, held[1..], sid);
    }
  }

  /** Two processes of different instances cannot name each other's sessions: an
      instance has no NUL, so a key splits in one way only. */
  lemma KeysDoNotCollide(a: string, x: string, b: string, y: string)
    requires '\0' !in a && '\0' !in b && Key(a, x) == Key(b, y)
    ensures a == b && x == y
  {
    CutAt(a, '\0', x);
    CutAt(b, '\0', y);
  }

  // --- A close in two halves ---

  predicate IsReattach(v: Registry, e: Event, sid: nat) {
    e.ConnectCame? && Reattaches(v, e.l, e.id, e.handle, e.fp, sid)
  }

  /** Some connect of the run picks up the socket of session sid. */
  ghost predicate Repossessed(v: Registry, events: seq<Event>, sid: nat)
    requires CanRun(v, events)
    decreases |events|
  {
    events != [] &&
    (IsReattach(v, events[0], sid) || Repossessed(Happen(v, events[0]), events[1..], sid))
  }

  lemma HandleMoves(v: Registry, e: Event, sid: nat)
    requires CanHappen(v, e) && Known(v, sid)
    ensures var u := Happen(v, e);
            && Known(u, sid)
            && u.heap[sid].s.handle == if IsReattach(v, e, sid) then e.handle else v.heap[sid].s.handle
  {
    match e
    case LinkGone(l, held) => DropAllSpares(v, l, held, sid);
    case OnItsOwn(i, op) => ApplyShape(v.heap[i].s, op);
    case ConnectCame(l, id, handle, fp) => ConnectHandles(v, l, id, handle, fp, sid);
    case _ =>
  }

  lemma ConnectHandles(v: Registry, l: Link, id: string, handle: string, fp: string, sid: nat)
    requires l in v.links && Known(v, sid) && (forall k :: k in v.sessions ==> Known(v, v.sessions[k]))
    ensures var u := Connect(v, l, id, handle, fp);
            && Known(u, sid)
            && u.heap[sid].s.handle == if Reattaches(v, l, id, handle, fp, sid) then handle else v.heap[sid].s.handle
  {
    hide Attach, Reusable, HeldByNewer;
    AttachShape(v.heap[sid].s, l, handle);
  }

  /** While a run's connects draw handles of their own, a session that carries a handle
      carries it to the end if and only if no connect picks its socket up. */
  lemma {:induction false} HandleStandsIff(v: Registry, events: seq<Event>, sid: nat, handle: string)
    requires CanRun(v, events) && Known(v, sid)
    requires forall e :: e in events && e.ConnectCame? ==> e.handle != handle
    ensures Known(RunAll(v, events), sid)
    ensures v.heap[sid].s.handle == handle ==>
      (RunAll(v, events).heap[sid].s.handle == handle <==> !Repossessed(v, events, sid))
    ensures v.heap[sid].s.handle != handle ==> RunAll(v, events).heap[sid].s.handle != handle
    decreases |events|
  {
    hide Happen, CanHappen, IsReattach;
    if events != [] {
      HandleMoves(v, events[0], sid);
      HandleStandsIff(Happen(v, events[0]), events[1..], sid, handle);
      assert IsReattach(v, events[0], sid) ==> events[0].ConnectCame? by { ReattachIsConnect(v, events[0], sid); }
    }
  }

  lemma ReattachIsConnect(v: Registry, e: Event, sid: nat)
    ensures IsReattach(v, e, sid) ==> e.ConnectCame?
  {}

  lemma {:induction false} RunThen(v: Registry, events: seq<Event>, last: Event)
    requires CanRun(v, events + [last])
    ensures CanRun(v, events) && CanHappen(RunAll(v, events), last)
    ensures RunAll(v, events + [last]) == Happen(RunAll(v, events), last)
    decreases |events|
  {
    hide Happen, CanHappen;
    if events == [] {
      assert [last][1..] == [] && [] + [last] == [last];
    } else {
      assert (events + [last])[0] == events[0] && (events + [last])[1..] == events[1..] + [last];
      RunThen(Happen(v, events[0]), events[1..], last);
    }
  }

  /** handleClose checks the claim under the lock, and shuts the socket down after it let
      go of it. The whole exchange ends the socket of the claim it checked if and only if
      no connect picked the socket up in between: else it ends a claim that carries
      another handle. Connects draw handles of their own. */
  lemma CloseEndsItsOwnClaimIff(v: Registry, l: Link, id: string, h: string, sid: nat, events: seq<Event>)
    requires CloseAccepted(v, l, id, h, sid) && CanRun(v, [CloseCame(l, id, h)] + events + [CloseEnds(sid)])
    requires forall e :: e in events && e.ConnectCame? ==> e.handle != h
    ensures var whole := [CloseCame(l, id, h)] + events + [CloseEnds(sid)];
      && CanRun(CloseFrame(v, l, id, h), events)
      && Known(RunAll(v, whole), sid)
      && var t := RunAll(v, whole).heap[sid].s;
      && t.conn.Closed?
      && (t.handle == h <==> !Repossessed(CloseFrame(v, l, id, h), events, sid))
  {
    var a := CloseFrame(v, l, id, h);
    var first, rest := CloseCame(l, id, h), events + [CloseEnds(sid)];
    assert [first] + events + [CloseEnds(sid)] == [first] + rest && ([first] + rest)[1..] == rest;
    CloseAsks(v, l, id, h, sid);
    hide CloseFrame, CloseAccepted, CanRun, RunAll;
    FirstStep(v, first, rest);
    RunThen(a, events, CloseEnds(sid));
    HandleStandsIff(a, events, sid, h);
    Ended(RunAll(a, events), sid);
  }

  lemma FirstStep(v: Registry, first: Event, rest: seq<Event>)
    requires CanRun(v, [first] + rest)
    ensures CanHappen(v, first) && CanRun(Happen(v, first), rest)
    ensures RunAll(v, [first] + rest) == RunAll(Happen(v, first), rest)
  {
    hide Happen, CanHappen;
    assert ([first] + rest)[1..] == rest;
  }

  lemma CloseAsks(v: Registry, l: Link, id: string, h: string, sid: nat)
    requires CloseAccepted(v, l, id, h, sid)
    ensures CanHappen(v, CloseCame(l, id, h)) && Happen(v, CloseCame(l, id, h)) == CloseFrame(v, l, id, h)
    ensures Known(CloseFrame(v, l, id, h), sid) && CloseFrame(v, l, id, h).heap[sid].s.handle == h
  {}

  lemma Ended(t: Registry, sid: nat)
    requires CanHappen(t, CloseEnds(sid))
    ensures var u := Happen(t, CloseEnds(sid));
      Known(t, sid) && Known(u, sid) && u.heap[sid].s.conn.Closed? && u.heap[sid].s.handle == t.heap[sid].s.handle
  {}

  /** handleWrite's two halves: it decides under the lock and queues the line, on the
      session it looked up, after it let go of it. The claim that then holds the socket
      is the writer's if and only if no connect picked the socket up in between. */
  lemma WriteReachesItsClaimIff(v: Registry, l: Link, h: string, sid: nat, events: seq<Event>)
    requires WriteAllowed(v, l, h, sid) && CanRun(v, events)
    requires forall e :: e in events && e.ConnectCame? ==> e.handle != h
    ensures Known(RunAll(v, events), sid)
    ensures RunAll(v, events).heap[sid].s.handle == h <==> !Repossessed(v, events, sid)
  {
    HandleStandsIff(v, events, sid, h);
  }

  /** And from every state in which a write is allowed and a connect may re-attach the
      socket, the line may end up queued on a socket its successor holds. */
  lemma WriteMayReachASuccessor(v: Registry, l: Link, l2: Link, id: string, h: string, h2: string, sid: nat)
    requires ClaimsInv(v) && WriteAllowed(v, l, h, sid) && Reattaches(v, l2, id, h2, v.heap[sid].fp, sid)
    ensures var events := [ConnectCame(l2, id, h2, v.heap[sid].fp)];
      && CanRun(v, events) && Known(RunAll(v, events), sid)
      && WriteAllowed(RunAll(v, events), l2, h2, sid) && h2 != h
  {
    var e := ConnectCame(l2, id, h2, v.heap[sid].fp);
    assert forall k :: k in v.sessions ==> KeyOk(v, k);
    assert RecOk(v, sid);
    AttachShape(v.heap[sid].s, l2, h2);
    hide Attach;
    assert [e][1..] == [];
    assert CanRun(Happen(v, e), []);
    assert RunAll(v, [e]) == Happen(v, e);
  }

  /** And it does happen, from every state in which a claim may be closed whose socket
      could still be re-attached: a connect that comes between the halves gets the
      socket, loses it to the close it knows nothing of, and is sent no closed frame. */
  lemma CloseMayEndASuccessor(v: Registry, l: Link, l2: Link, id: string, h: string, h2: string, sid: nat)
    requires ClaimsInv(v) && CloseAccepted(v, l, id, h, sid) && id != ""
    requires l2 in v.links && v.links[l2].instance == v.links[l].instance
    requires h2 != "" && h2 !in v.byHandle && Reusable(v.heap[sid].s)
    ensures var events := [CloseCame(l, id, h), ConnectCame(l2, id, h2, v.heap[sid].fp), CloseEnds(sid),
      Forgotten(sid)];
            CanRun(v, events) && Known(RunAll(v, events), sid) &&
            var u := RunAll(v, events);
            var s := u.heap[sid].s;
            && s.handle == h2 && s.link == Some(l2) && s.conn.Closed? && h2 !in u.byHandle
            && forall limit: nat, f :: f in PullFrames(s, limit) ==> !f.ClosedFrame?
  {
    var key := Key(v.links[l].instance, id);
    var a := CloseFrame(v, l, id, h);
    StepKeeps(v, CloseCame(l, id, h));
    assert a.heap[sid].s == RequestClose(v.heap[sid].s, l);
    CloseKeepsIndexes(v, l, id, h, sid);
    var b := Connect(a, l2, id, h2, v.heap[sid].fp);
    assert KeyOk(v, key);
    PicksUp(a, l2, id, h2, v.heap[sid].fp, sid);
    ConnectKeeps(a, l2, id, h2, v.heap[sid].fp);
    var c := SetState(b, sid, Shutdown(b.heap[sid].s, "closed by stugan"));
    EndKeeps(b, sid, Shutdown(b.heap[sid].s, "closed by stugan"));
    var d := Forget(c, sid);
    ForgetKeeps(c, sid);
    FourSteps(v, a, b, c, d, l, l2, id, h, h2, sid);
    NotIndexed(c, sid, h2);
    NoClosedFrame(d.heap[sid].s);
  }

  /** Such a state is reached: two links of an instance, a connect, its socket, and the
      server's welcome. */
  lemma ClosableIsReached()
    ensures var events := [Hello(0, "i", 1), Hello(1, "i", 2), ConnectCame(0, "n", "h", ""),
                           OnItsOwn(0, Dialed), OnItsOwn(0, Came("001", 0, 0))];
      && CanRun(EMPTY, events)
      && var v := RunAll(EMPTY, events);
      && ClaimsInv(v) && CloseAccepted(v, 0, "n", "h", 0) && Reusable(v.heap[0].s)
      && WriteAllowed(v, 0, "h", 0) && Reattaches(v, 1, "n", "j", v.heap[0].fp, 0)
      && 1 in v.links && v.links[1].instance == v.links[0].instance && "j" !in v.byHandle
  {
    hide Happen, CanHappen, ClaimsInv, CloseAccepted, Reusable, CanRun, RunAll, WriteAllowed, Reattaches;
    var e2, e3, e4 := ConnectCame(0, "n", "h", ""), OnItsOwn(0, Dialed), OnItsOwn(0, Came("001", 0, 0));
    TwoHellos();
    FirstConnect();
    ClosableAtLast();
    FiveSteps(EMPTY, ONE_LINK, TWO_LINKS, Dialing0(), SetState(Dialing0(), 0, DialOk(Dialing0().heap[0].s)), AtLast(),
              Hello(0, "i", 1), Hello(1, "i", 2), e2, e3, e4);
    EmptyIsFine();
    RunKeeps(EMPTY, [Hello(0, "i", 1), Hello(1, "i", 2), e2, e3, e4]);
  }

  const ONE_LINK := EMPTY.(links := map[0 := LinkRec("i", 1)])
  const TWO_LINKS := EMPTY.(links := map[0 := LinkRec("i", 1), 1 := LinkRec("i", 2)])

  function Dialing0(): (v: Registry)
    ensures Known(v, 0)
  {
    Fresh(TWO_LINKS, 0, Key("i", "n"), "h", "")
  }

  function AtLast(): Registry {
    var v := SetState(Dialing0(), 0, DialOk(Dialing0().heap[0].s));
    SetState(v, 0, Ingest(v.heap[0].s, "001", 0, 0))
  }

  lemma TwoHellos()
    ensures CanHappen(EMPTY, Hello(0, "i", 1)) && Happen(EMPTY, Hello(0, "i", 1)) == ONE_LINK
    ensures CanHappen(ONE_LINK, Hello(1, "i", 2)) && Happen(ONE_LINK, Hello(1, "i", 2)) == TWO_LINKS
  {}

  lemma FirstConnect()
    ensures var e2, e3, e4 := ConnectCame(0, "n", "h", ""), OnItsOwn(0, Dialed), OnItsOwn(0, Came("001", 0, 0));
      var v := SetState(Dialing0(), 0, DialOk(Dialing0().heap[0].s));
      && CanHappen(TWO_LINKS, e2) && Happen(TWO_LINKS, e2) == Dialing0()
      && CanHappen(Dialing0(), e3) && Happen(Dialing0(), e3) == v
      && CanHappen(v, e4) && Happen(v, e4) == AtLast()
  {
    hide Ingest, Key, DialOk, New;
  }

  lemma ClosableAtLast()
    ensures var v := AtLast();
      && CloseAccepted(v, 0, "n", "h", 0) && Reusable(v.heap[0].s)
      && WriteAllowed(v, 0, "h", 0) && Reattaches(v, 1, "n", "j", v.heap[0].fp, 0)
      && 1 in v.links && v.links[1].instance == v.links[0].instance && "j" !in v.byHandle
  {
    hide Ingest, Key, Reusable, DialOk, New;
    Welcomed();
    OpenIfReusable(AtLast().heap[0].s);
  }

  lemma OpenIfReusable(s: State)
    ensures Reusable(s) ==> s.conn.Open?
  {}

  lemma EmptyIsFine()
    ensures ClaimsInv(EMPTY)
  {}

  lemma FiveSteps(a: Registry, b: Registry, c: Registry, d: Registry, e: Registry, f: Registry,
                  v: Event, w: Event, x: Event, y: Event, z: Event)
    requires CanHappen(a, v) && Happen(a, v) == b && CanHappen(b, w) && Happen(b, w) == c
    requires CanHappen(c, x) && Happen(c, x) == d && CanHappen(d, y) && Happen(d, y) == e
    requires CanHappen(e, z) && Happen(e, z) == f
    ensures CanRun(a, [v, w, x, y, z]) && RunAll(a, [v, w, x, y, z]) == f
  {
    hide Happen, CanHappen;
    assert [v, w, x, y, z][1..] == [w, x, y, z] && [w, x, y, z][1..] == [x, y, z];
    assert [x, y, z][1..] == [y, z] && [y, z][1..] == [z] && [z][1..] == [];
    assert CanRun(f, []) && RunAll(f, []) == f;
    assert CanRun(e, [z]) && RunAll(e, [z]) == f;
    assert CanRun(d, [y, z]) && RunAll(d, [y, z]) == f;
    assert CanRun(c, [x, y, z]) && RunAll(c, [x, y, z]) == f;
    assert CanRun(b, [w, x, y, z]) && RunAll(b, [w, x, y, z]) == f;
  }

  lemma Welcomed()
    ensures var s := Ingest(DialOk(New(0, "h")), "001", 0, 0);
      Reusable(s) && s.handle == "h" && s.link == Some(0)
  {
    hide Classify;
    WelcomeParses();
  }

  lemma WelcomeParses()
    ensures Classify("001").Relayed? && Classify("001").line.cmd == "001" && Classify("001").line.params == []
  {
    hide TrimBlanks, Parse;
    assert Parse("001") == Some(Line("", "001", [])) by { WelcomeIs(); }
    assert |TrimBlanks("001")| == 3 by { WelcomeTrims(); }
  }

  lemma WelcomeIs()
    ensures Parse("001") == Some(Line("", "001", []))
  {
    assert ' ' !in "001";
    assert Before("001", ' ') == "001" && After("001", ' ') == "" && ToUpper("001") == "001";
    assert Params("") == [];
  }

  lemma WelcomeTrims()
    ensures |TrimBlanks("001")| == 3
  {}

  lemma CloseKeepsIndexes(v: Registry, l: Link, id: string, h: string, sid: nat)
    requires CloseAccepted(v, l, id, h, sid)
    ensures var a := CloseFrame(v, l, id, h);
            && a.sessions == v.sessions && a.byHandle == v.byHandle && a.links == v.links && sid in a.closing
            && |a.heap| == |v.heap| && a.heap[sid].fp == v.heap[sid].fp && a.heap[sid].s.link == None
            && a.heap[sid].s.finished && (Reusable(v.heap[sid].s) ==> Reusable(a.heap[sid].s))
  {}

  lemma PicksUp(a: Registry, l2: Link, id: string, h2: string, fp: string, sid: nat)
    requires ClaimsInv(a) && Known(a, sid) && l2 in a.links && id != "" && h2 != "" && h2 !in a.byHandle
    requires Key(a.links[l2].instance, id) in a.sessions && a.sessions[Key(a.links[l2].instance, id)] == sid
    requires a.heap[sid].s.link == None && Reusable(a.heap[sid].s) && a.heap[sid].fp == fp
    ensures forall k :: k in a.sessions ==> Known(a, a.sessions[k])
    ensures Connect(a, l2, id, h2, fp) == Reattach(a, l2, sid, h2)
    ensures var s := Connect(a, l2, id, h2, fp).heap[sid].s;
            s.handle == h2 && s.link == Some(l2) && s.finished == a.heap[sid].s.finished
            && !s.conn.Closed? && (forall f :: f in s.ctrl ==> !f.ClosedFrame?)
  {
    assert forall k :: k in a.sessions ==> KeyOk(a, k);
    hide ReplayBurst, Recent, Above;
  }

  lemma FourSteps(v: Registry, a: Registry, b: Registry, c: Registry, d: Registry, l: Link, l2: Link, id: string,
    h: string, h2: string, sid: nat)
    requires l in v.links && a == CloseFrame(v, l, id, h) && Known(a, sid) && sid in a.closing && l2 in a.links
    requires forall k :: k in a.sessions ==> Known(a, a.sessions[k])
    requires Known(v, sid) && b == Connect(a, l2, id, h2, v.heap[sid].fp) && Known(b, sid) && b.closing == a.closing
    requires c == SetState(b, sid, Shutdown(b.heap[sid].s, "closed by stugan")) && d == Forget(c, sid)
    ensures var events := [CloseCame(l, id, h), ConnectCame(l2, id, h2, v.heap[sid].fp), CloseEnds(sid),
      Forgotten(sid)];
            CanRun(v, events) && RunAll(v, events) == d
  {
    hide CloseFrame, Connect, Forget, Attach;
    var e0, e1, e2, e3 := CloseCame(l, id, h), ConnectCame(l2, id, h2, v.heap[sid].fp), CloseEnds(sid), Forgotten(sid);
    var events := [e0, e1, e2, e3];
    assert events[1..] == [e1, e2, e3] && [e1, e2, e3][1..] == [e2, e3] && [e2, e3][1..] == [e3] && [e3][1..] == [];
    assert CanRun(d, []) && RunAll(d, []) == d;
    assert CanRun(c, [e3]) && RunAll(c, [e3]) == d;
    assert CanRun(b, [e2, e3]) && RunAll(b, [e2, e3]) == d;
    assert CanRun(a, [e1, e2, e3]) && RunAll(a, [e1, e2, e3]) == d;
  }

  lemma NotIndexed(c: Registry, sid: nat, h2: string)
    requires ClaimsInv(c) && Known(c, sid) && c.heap[sid].s.handle == h2 && h2 in c.byHandle && c.byHandle[h2] == sid
    ensures h2 !in Forget(c, sid).byHandle
  {
    assert RecOk(c, sid);
  }

  lemma NoClosedFrame(s: State)
    requires s.finished && forall f :: f in s.ctrl ==> !f.ClosedFrame?
    ensures forall limit: nat, f :: f in PullFrames(s, limit) ==> !f.ClosedFrame?
  {
    forall limit: nat, f | f in PullFrames(s, limit)
      ensures !f.ClosedFrame?
    {
      assert !ClosesNow(s, limit);
      assert f in s.ctrl || f in LineFrames(s.handle, Batch(s, limit));
    }
  }

  /** A handle that was superseded stays powerless: however the run goes on, no write,
      detach or close that carries it does anything to the session it once held. */
  lemma SupersededForGood(v: Registry, events: seq<Event>, e: Event, sid: nat)
    requires ClaimsInv(v) && CanRun(v, events) && Known(v, sid)
    requires (e.DetachCame? || e.CloseCame?) && CanHappen(RunAll(v, events), e)
    requires v.heap[sid].s.handle != e.handle
    requires forall x :: x in events && x.ConnectCame? ==> x.handle != e.handle
    ensures var t := RunAll(v, events);
      && Known(t, sid) && Known(Happen(t, e), sid)
      && Happen(t, e).heap[sid] == t.heap[sid]
      && forall l :: !WriteAllowed(t, l, e.handle, sid)
  {
    hide ClaimsInv, Happen, CanHappen, RunAll, CanRun, Repossessed;
    var t := RunAll(v, events);
    RunKeeps(v, events);
    HandleStandsIff(v, events, sid, e.handle);
    SupersededIsPowerless(t, e, sid);
  }
}
