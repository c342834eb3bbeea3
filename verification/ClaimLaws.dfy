/** What the server's frames come to, field by field: whom a connect is refused, which
    session an accepted one gets and in what state, what a detach, a close and the end of
    a link let go of. */
module ClaimLaws {
  import opened GoStrings
  import opened Buffer
  import opened SessionSpec
  import opened Claims

  // --- Connect ---

  /** A connect is turned away that names no network or handle, whose handle is in use, or
      whose session another link of a newer process holds. */
  predicate TurnedAway(v: Registry, l: Link, id: string, handle: string)
    requires l in v.links
  {
    var key := v.links[l].instance + "\0" + id;
    || id == "" || handle == "" || handle in v.byHandle
    || (key in v.sessions && v.sessions[key] < |v.heap|
        && match v.heap[v.sessions[key]].s.link
           case None => false
           case Some(holder) => holder != l && holder in v.links && v.links[holder].gen > v.links[l].gen)
  }

  /** The socket of session sid can be picked up: it is open, its server's welcome was
      recorded, and the network is still configured as it was. */
  predicate CanPickUp(v: Registry, sid: nat, fp: string) {
    Known(v, sid) && var r := v.heap[sid];
    r.s.conn.Open? && r.s.trk.registered && r.s.trk.welcomeIdx >= 0 && r.fp == fp
  }

  /** The handle and the key lead to session sid, which link l holds under the handle. */
  predicate HoldsNow(u: Registry, l: Link, key: string, handle: string, fp: string, sid: nat) {
    && handle in u.byHandle && u.byHandle[handle] == sid
    && key in u.sessions && u.sessions[key] == sid
    && Known(u, sid) && u.heap[sid].key == key && u.heap[sid].fp == fp
    && u.heap[sid].s.handle == handle && u.heap[sid].s.link == Some(l)
  }

  /** Session sid is at its end: nobody holds it, it has no backlog, nothing leads to it. */
  ghost predicate GoneFor(u: Registry, sid: nat) {
    && Known(u, sid) && u.heap[sid].s.conn.Closed? && u.heap[sid].s.link == None && u.heap[sid].s.buf == []
    && (forall k :: k in u.sessions ==> u.sessions[k] != sid)
    && (forall h :: h in u.byHandle ==> u.byHandle[h] != sid)
  }

  /** Every other session is as it was, and so is what leads to it. */
  ghost predicate OthersStay(v: Registry, u: Registry, sid: int) {
    && |v.heap| <= |u.heap| && u.links == v.links && u.closing == v.closing
    && (forall i: nat :: i < |v.heap| && i != sid ==> u.heap[i] == v.heap[i])
    && (forall k :: k in v.sessions && v.sessions[k] != sid ==> k in u.sessions && u.sessions[k] == v.sessions[k])
    && (forall h :: h in v.byHandle && v.byHandle[h] != sid ==> h in u.byHandle && u.byHandle[h] == v.byHandle[h])
    && (forall k :: k in u.sessions && u.sessions[k] < |v.heap| && u.sessions[k] != sid ==>
          k in v.sessions && v.sessions[k] == u.sessions[k])
    && (forall h :: h in u.byHandle && u.byHandle[h] < |v.heap| && u.byHandle[h] != sid ==>
          h in v.byHandle && v.byHandle[h] == u.byHandle[h])
  }

  lemma TurnedAwayChangesNothing(v: Registry, l: Link, id: string, handle: string, fp: string)
    requires ClaimsInv(v) && l in v.links && TurnedAway(v, l, id, handle)
    ensures forall k :: k in v.sessions ==> Known(v, v.sessions[k])
    ensures Connect(v, l, id, handle, fp) == v
  {
    assert forall k :: k in v.sessions ==> KeyOk(v, k);
    hide Attach, Reusable, Forget, Fresh, Reattach;
  }

  /** A connect that is not turned away has a session: the one its key led to, with its
      backlog and all it knows, if that can be picked up; else a new one that dials, and
      the old one is at its end. */
  lemma ConnectGivesASession(v: Registry, l: Link, id: string, handle: string, fp: string)
    requires ClaimsInv(v) && l in v.links && !TurnedAway(v, l, id, handle)
    ensures forall k :: k in v.sessions ==> Known(v, v.sessions[k])
    ensures var u, key := Connect(v, l, id, handle, fp), v.links[l].instance + "\0" + id;
      if key in v.sessions && CanPickUp(v, v.sessions[key], fp) then
        && HoldsNow(u, l, key, handle, fp, v.sessions[key]) && OthersStay(v, u, v.sessions[key]) && |u.heap| == |v.heap|
        && var s, t := v.heap[v.sessions[key]].s, u.heap[v.sessions[key]].s;
        && t == s.(link := Some(l), handle := handle, handles := t.handles, sent := t.sent, ctrl := t.ctrl, lost := 0,
                   trk := s.trk.(unattended := false))
      else
        && HoldsNow(u, l, key, handle, fp, |v.heap|) && |u.heap| == |v.heap| + 1
        && var t := u.heap[|v.heap|].s;
        && t.conn.Dialing? && t.buf == [] && t.last == 0 && t.handles == [handle] && t.ctrl == []
        && (key in v.sessions ==> GoneFor(u, v.sessions[key]))
        && OthersStay(v, u, if key in v.sessions then v.sessions[key] else -1)
  {
    assert forall k :: k in v.sessions ==> KeyOk(v, k);
    var key := Key(v.links[l].instance, id);
    ConnectIs(v, l, id, handle, fp);
    hide Fresh, Replace, Reattach, ClaimsInv, Connect;
    if key !in v.sessions {
      FreshHolds(v, l, key, handle, fp);
    } else {
      var sid := v.sessions[key];
      IsAlive(v, key);
      if CanPickUp(v, sid, fp) {
        ReattachHolds(v, l, sid, handle);
      } else {
        ReplaceKeeps(v, sid);
        ReplaceEnds(v, sid);
        FreshHolds(Replace(v, sid), l, key, handle, fp);
        FreshIndexes(Replace(v, sid), l, key, handle, fp);
        ReplacedAndFresh(v, Replace(v, sid), Connect(v, l, id, handle, fp), sid, key, handle);
      }
    }
  }

  lemma IsAlive(v: Registry, key: string)
    requires ClaimsInv(v) && key in v.sessions
    ensures Alive(v, v.sessions[key]) && v.heap[v.sessions[key]].key == key
  {
    assert KeyOk(v, key);
  }

  lemma FreshIndexes(v: Registry, l: Link, key: string, handle: string, fp: string)
    ensures var u := Fresh(v, l, key, handle, fp);
      u.sessions == v.sessions[key := |v.heap|] && u.byHandle == v.byHandle[handle := |v.heap|]
  {}

  lemma ConnectIs(v: Registry, l: Link, id: string, handle: string, fp: string)
    requires l in v.links && !TurnedAway(v, l, id, handle) && forall k :: k in v.sessions ==> Known(v, v.sessions[k])
    ensures var u, key := Connect(v, l, id, handle, fp), Key(v.links[l].instance, id);
      && (key !in v.sessions ==> u == Fresh(v, l, key, handle, fp))
      && (key in v.sessions ==>
            var sid := v.sessions[key];
            u == if CanPickUp(v, sid, fp) then Reattach(v, l, sid, handle)
                 else Fresh(Replace(v, sid), l, key, handle, fp))
  {
    hide Fresh, Replace, Reattach;
  }

  lemma FreshHolds(v: Registry, l: Link, key: string, handle: string, fp: string)
    requires ClaimsInv(v) && key !in v.sessions && handle !in v.byHandle
    ensures var u := Fresh(v, l, key, handle, fp);
      && HoldsNow(u, l, key, handle, fp, |v.heap|) && |u.heap| == |v.heap| + 1 && OthersStay(v, u, -1)
      && var t := u.heap[|v.heap|].s;
      && t.conn.Dialing? && t.buf == [] && t.last == 0 && t.handles == [handle] && t.ctrl == []
  {
    hide ClaimsInv;
  }

  lemma ReattachHolds(v: Registry, l: Link, sid: nat, handle: string)
    requires ClaimsInv(v) && Alive(v, sid) && handle !in v.byHandle
    ensures var u := Reattach(v, l, sid, handle);
      && HoldsNow(u, l, v.heap[sid].key, handle, v.heap[sid].fp, sid) && OthersStay(v, u, sid) && |u.heap| == |v.heap|
      && var s, t := v.heap[sid].s, u.heap[sid].s;
      && t == s.(link := Some(l), handle := handle, handles := t.handles, sent := t.sent, ctrl := t.ctrl, lost := 0,
                 trk := s.trk.(unattended := false))
  {
    hide ReplayBurst, Above, Recent, ClaimsInv;
  }

  lemma ReplaceEnds(v: Registry, sid: nat)
    requires ClaimsInv(v) && Alive(v, sid)
    ensures GoneFor(Replace(v, sid), sid) && OthersStay(v, Replace(v, sid), sid) && |Replace(v, sid).heap| == |v.heap|
  {
    var s := Shutdown(Claims.Release(v.heap[sid].s), "replaced by a new connection");
    assert RecOk(v, sid);
    SetKeeps(v, sid, s);
    SetForgets(v, sid, s);
  }

  /** A session given its last state and forgotten. */
  lemma SetForgets(v: Registry, sid: nat, s: State)
    requires Known(v, sid) && ClaimsInv(SetState(v, sid, s)) && s.conn.Closed? && s.link == None
    ensures var u := Forget(SetState(v, sid, s), sid);
      GoneFor(u, sid) && OthersStay(v, u, sid) && |u.heap| == |v.heap|
  {
    hide ClaimsInv, Forget;
    var w := SetState(v, sid, s);
    ForgetEnds(w, sid);
    OthersStillStay(v, w, Forget(w, sid), sid);
  }

  lemma OthersStillStay(v: Registry, w: Registry, u: Registry, sid: nat)
    requires OthersStay(w, u, sid) && |w.heap| == |v.heap|
    requires w.sessions == v.sessions && w.byHandle == v.byHandle && w.links == v.links && w.closing == v.closing
    requires forall i: nat :: i < |v.heap| && i != sid ==> w.heap[i] == v.heap[i]
    ensures OthersStay(v, u, sid)
  {}

  lemma ReplacedAndFresh(v: Registry, m: Registry, u: Registry, sid: nat, key: string, handle: string)
    requires GoneFor(m, sid) && OthersStay(v, m, sid) && OthersStay(m, u, -1) && |m.heap| == |v.heap|
    requires u.sessions.Keys == m.sessions.Keys + {key} && key in u.sessions && u.sessions[key] == |m.heap|
    requires u.byHandle.Keys == m.byHandle.Keys + {handle} && handle in u.byHandle && u.byHandle[handle] == |m.heap|
    ensures GoneFor(u, sid) && OthersStay(v, u, sid)
  {}

  // --- Letting go ---

  /** A detach is heard from the holder, under the handle it holds by. Then nobody holds
      the session; one that is still open keeps its backlog and its place, one that has
      closed is at its end. */
  lemma DetachLetsGo(v: Registry, l: Link, h: string)
    requires ClaimsInv(v)
    ensures var u := DetachFrame(v, l, h);
      if h in v.byHandle && v.byHandle[h] < |v.heap| && v.heap[v.byHandle[h]].s.link == Some(l)
      then LetsGoOf(v, u, v.byHandle[h]) else u == v
  {
    if h in v.byHandle {
      assert HandleOk(v, h);
      if v.heap[v.byHandle[h]].s.link == Some(l) {
        LetGoIs(v, l, v.byHandle[h]);
      }
    }
    hide ClaimsInv, LetGo, LetsGoOf;
  }

  ghost predicate LetsGoOf(v: Registry, u: Registry, sid: nat)
    requires Known(v, sid)
  {
    OthersStay(v, u, sid) && |u.heap| == |v.heap|
    && var s := v.heap[sid].s;
      && (s.conn.Closed? ==> GoneFor(u, sid))
      && (!s.conn.Closed? ==>
            && u.heap[sid] == v.heap[sid].(s := s.(link := None, ctrl := []))
            && u.sessions == v.sessions && u.byHandle == v.byHandle)
  }

  lemma LetGoIs(v: Registry, l: Link, sid: nat)
    requires ClaimsInv(v) && Known(v, sid) && v.heap[sid].s.link == Some(l)
    ensures LetsGoOf(v, LetGo(v, l, sid), sid)
  {
    assert RecOk(v, sid);
    var s := v.heap[sid].s;
    if s.conn.Closed? {
      SetKeeps(v, sid, Detach(s, l));
      SetForgets(v, sid, Detach(s, l));
      hide ClaimsInv, Forget;
    }
  }

  lemma ForgetEnds(v: Registry, sid: nat)
    requires ClaimsInv(v) && Known(v, sid) && v.heap[sid].s.conn.Closed? && v.heap[sid].s.link == None
    ensures GoneFor(Forget(v, sid), sid) && OthersStay(v, Forget(v, sid), sid) && |Forget(v, sid).heap| == |v.heap|
  {
    assert RecOk(v, sid);
    forall k | k in v.sessions
      ensures KeyOk(v, k)
    {}
    forall h | h in v.byHandle
      ensures HandleOk(v, h)
    {}
    hide ClaimsInv;
  }

  /** A close is taken if and only if the session its id leads to has this handle and is
      held by this link or by nobody: then nobody holds it, no closed frame is due, and it
      is to be shut down. */
  lemma CloseIsTakenIff(v: Registry, l: Link, id: string, h: string)
    requires ClaimsInv(v) && l in v.links
    ensures var u, key := CloseFrame(v, l, id, h), v.links[l].instance + "\0" + id;
      if key in v.sessions && v.sessions[key] < |v.heap| && v.heap[v.sessions[key]].s.handle == h
         && (v.heap[v.sessions[key]].s.link == None || v.heap[v.sessions[key]].s.link == Some(l))
      then
        var sid := v.sessions[key];
        && u.closing == v.closing + {sid} && u.sessions == v.sessions && u.byHandle == v.byHandle && u.links == v.links
        && |u.heap| == |v.heap| && (forall i: nat :: i < |v.heap| && i != sid ==> u.heap[i] == v.heap[i])
        && var s, t := v.heap[sid].s, u.heap[sid].s;
        t == s.(link := None, finished := true, ctrl := if s.link == None then s.ctrl else [])
      else u == v
  {}

  /** The end of a link lets go of every session it held, of each as a detach would, and
      leaves all others alone. */
  lemma {:induction false} LinkEndLetsGo(v: Registry, l: Link, held: seq<nat>, sid: nat)
    requires ClaimsInv(v) && Known(v, sid)
    ensures ClaimsInv(DropAll(v, l, held)) && Known(DropAll(v, l, held), sid)
    ensures var u, s := DropAll(v, l, held), v.heap[sid].s;
      if sid in held && s.link == Some(l) then
        if s.conn.Closed? then GoneFor(u, sid)
        else u.heap[sid] == v.heap[sid].(s := s.(link := None, ctrl := [])) && (Indexed(u, sid) <==> Indexed(v, sid))
      else u.heap[sid] == v.heap[sid] && (Indexed(u, sid) <==> Indexed(v, sid))
    decreases |held|
  {
    if held != [] {
      var i := held[0];
      var w := if Known(v, i) then LetGo(v, l, i) else v;
      OneLetGo(v, l, i, sid);
      hide ClaimsInv, LetGo, GoneFor, Indexed;
      LinkEndLetsGo(w, l, held[1..], sid);
      if GoneFor(w, sid) {
        GoneStays(w, l, held[1..], sid);
      }
      assert sid in held <==> sid == i || sid in held[1..];
    }
  }

  lemma OneLetGo(v: Registry, l: Link, i: nat, sid: nat)
    requires ClaimsInv(v) && Known(v, sid)
    ensures var w, s := if Known(v, i) then LetGo(v, l, i) else v, v.heap[sid].s;
      && ClaimsInv(w) && Known(w, sid)
      && if i == sid && s.link == Some(l) then
           if s.conn.Closed? then GoneFor(w, sid)
           else w.heap[sid] == v.heap[sid].(s := s.(link := None, ctrl := [])) && (Indexed(w, sid) <==> Indexed(v, sid))
         else w.heap[sid] == v.heap[sid] && (Indexed(w, sid) <==> Indexed(v, sid))
  {
    if Known(v, i) {
      LetGoKeeps(v, l, i);
      if v.heap[i].s.link == Some(l) {
        LetGoIs(v, l, i);
        if i != sid {
          IndexedStays(v, LetGo(v, l, i), i, sid);
        }
      }
    }
    hide ClaimsInv, LetGo, GoneFor, OthersStay;
  }

  lemma IndexedStays(v: Registry, w: Registry, i: nat, sid: nat)
    requires Known(v, sid) && i != sid && OthersStay(v, w, i) && ClaimsInv(v) && ClaimsInv(w)
    ensures Indexed(w, sid) <==> Indexed(v, sid)
  {
    hide ClaimsInv;
    assert w.heap[sid] == v.heap[sid];
  }

  lemma {:induction false} GoneStays(v: Registry, l: Link, held: seq<nat>, sid: nat)
    requires GoneFor(v, sid)
    ensures GoneFor(DropAll(v, l, held), sid)
    decreases |held|
  {
    if held != [] {
      var w := if Known(v, held[0]) then LetGo(v, l, held[0]) else v;
      GoneStays(w, l, held[1..], sid);
    }
  }
}
