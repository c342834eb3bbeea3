/** internal/engine/server.go as it runs: its maps, the sessions and the budget they
    share are changed in place, and each handler does to the registry what Claims says.
    A session is named by its place in the list of all there ever were; that number
    stands for the reference the source keeps in its maps. */
module EngineServer {
  import opened GoStrings
  import opened Buffer
  import opened SessionSpec
  import opened EngineSession
  import opened Claims
  import opened ClaimLaws

  /** A connect that gets an error for an answer, from an open server and with an
      address that parses. */
  predicate Refused(v: Registry, l: Link, id: string, handle: string)
    requires l in v.links
  {
    var key := Key(v.links[l].instance, id);
    id == "" || handle == "" || handle in v.byHandle || (key in v.sessions && HeldByNewer(v, l, v.sessions[key]))
  }

  lemma RefusedIff(v: Registry, l: Link, id: string, handle: string)
    requires l in v.links && forall k :: k in v.sessions ==> Known(v, v.sessions[k])
    ensures Refused(v, l, id, handle) <==> TurnedAway(v, l, id, handle)
  {}

  /** Who holds the session a connect asks for, and under which handle. */
  function Displaced(v: Registry, l: Link, id: string): Option<(Link, string)>
    requires l in v.links
  {
    var key := Key(v.links[l].instance, id);
    if key in v.sessions && Known(v, v.sessions[key]) && v.heap[v.sessions[key]].s.link.Some?
    then Some((v.heap[v.sessions[key]].s.link.value, v.heap[v.sessions[key]].s.handle))
    else None
  }

  /** After a connect that went through, the claim told of is gone for good: its handle
      leads nowhere, and its link no longer holds that socket under it. */
  lemma DisplacedIsPowerless(v: Registry, l: Link, id: string, handle: string, fp: string)
    requires ClaimsInv(v) && l in v.links && !Refused(v, l, id, handle) && Displaced(v, l, id).Some?
    ensures forall k :: k in v.sessions ==> Known(v, v.sessions[k])
    ensures var (was, h) := Displaced(v, l, id).value;
      var u := Connect(v, l, id, handle, fp);
      && h in v.byHandle && h !in u.byHandle
      && forall sid: nat :: !WriteAllowed(u, was, h, sid)
  {
    var key := Key(v.links[l].instance, id);
    assert forall k :: k in v.sessions ==> KeyOk(v, k);
    var sid := v.sessions[key];
    assert RecOk(v, sid);
    ConnectKeeps(v, l, id, handle, fp);
    var (was, h) := Displaced(v, l, id).value;
    var u := Connect(v, l, id, handle, fp);
    Unlisted(v, l, id, handle, fp, sid);
    forall other: nat
      ensures !WriteAllowed(u, was, h, other)
    {
      if WriteAllowed(u, was, h, other) {
        WritesReachTheHolder(u, was, h, other);
        assert false;
      }
    }
  }

  lemma Unlisted(v: Registry, l: Link, id: string, handle: string, fp: string, sid: nat)
    requires ClaimsInv(v) && l in v.links && !Refused(v, l, id, handle)
    requires Key(v.links[l].instance, id) in v.sessions && v.sessions[Key(v.links[l].instance, id)] == sid
    requires forall k :: k in v.sessions ==> Known(v, v.sessions[k])
    requires Known(v, sid) && RecOk(v, sid) && Alive(v, sid)
    ensures v.heap[sid].s.handle !in Connect(v, l, id, handle, fp).byHandle
  {
    hide Attach, Reusable;
  }

  class Server {
    const budget: Budget
    const cap: nat
    /** Every session there ever was, with its key and fingerprint, and what Claims
        keeps of it. */
    var objs: seq<Session>
    var keys: seq<string>
    var fps: seq<string>
    ghost var heap: seq<Rec>
    var sessions: map<string, nat>
    var byHandle: map<string, nat>
    var links: map<Link, LinkRec>
    var closing: set<nat>
    var closed: bool

    constructor (limit: nat, cap: nat)
      ensures Valid() && View() == EMPTY && !closed && fresh(budget) && this.cap == cap && budget.max == limit
    {
      budget := new Budget(limit);
      this.cap, closed := cap, false;
      objs, keys, fps, heap := [], [], [], [];
      sessions, byHandle, links, closing := map[], map[], map[], {};
    }

    ghost function View(): Registry
      reads this
    {
      Registry(heap, sessions, byHandle, links, closing)
    }

    /** No two sessions are one, or share a buffer. */
    ghost predicate Separate()
      reads this, objs, set s | s in objs :: s.buf
    {
      && (forall s :: s in objs ==> s.budget == budget)
      && (forall i, j :: 0 <= i < j < |objs| ==> objs[i] != objs[j])
      && (forall s, t :: s in objs && t in objs && s != t ==> s.buf != t.buf && s.buf.backing != t.buf.backing)
    }

    ghost predicate AllMirrored()
      reads this, objs, set s | s in objs :: s.buf, set s | s in objs :: s.buf.backing
      requires |heap| == |objs|
    {
      forall i :: 0 <= i < |objs| ==> Mirrors(objs[i], heap[i])
    }

    /** The budget sees of a session what its record says. */
    ghost predicate Seen()
      reads this, budget, objs, set s | s in objs :: s.buf, set s | s in objs :: s.buf.backing
      requires (forall s :: s in budget.sessions ==> s in objs) && budget.Valid() && |heap| == |objs|
    {
      && budget.Views().Keys == budget.sessions
      && forall i :: 0 <= i < |objs| && objs[i] in budget.sessions ==> budget.Views()[objs[i]] == heap[i].s
    }

    /** The sessions are their records, the budget is exact, and whatever left the budget
        holds nothing. */
    ghost predicate Valid()
      reads this, budget, objs, set s | s in objs :: s.buf, set s | s in objs :: s.buf.backing
    {
      && Separate()
      && |keys| == |objs| && |fps| == |objs| && |heap| == |objs|
      && AllMirrored()
      && (forall i :: 0 <= i < |objs| ==> heap[i].key == keys[i] && heap[i].fp == fps[i])
      && (forall s :: s in budget.sessions ==> s in objs)
      && budget.Valid() && budget.Exact() && Seen()
      && (forall i :: 0 <= i < |objs| && objs[i] !in budget.sessions ==> heap[i].s.buf == [])
    }

    /** What stays when one session changes but keeps its backlog. */
    twostate lemma OneMoved(sid: nat)
      requires old(Valid()) && sid < |objs| && objs == old(objs) && keys == old(keys) && fps == old(fps)
      requires budget.sessions == old(budget.sessions) && budget.used == old(budget.used)
      requires objs[sid].buf.backing == old(objs[sid].buf.backing)
      requires forall s :: s in objs && s != objs[sid] ==> unchanged(s) && unchanged(s.buf) && unchanged(s.buf.backing)
      requires |heap| == |objs| && heap == old(heap)[sid := old(heap)[sid].(s := heap[sid].s)]
      requires Mirrors(objs[sid], heap[sid]) && heap[sid].s.buf == old(heap)[sid].s.buf
      ensures Valid()
    {
      hide AllMirrored, Mirrors, Separate, Session.View, Session.Valid, Cost, Bytes, Budget.Views, Budget.Valid;
      MirrorsStay(sid);
      StillValid();
      SameBytes(old(budget.Views()), budget.Views());
    }

    twostate lemma MirrorsStay(sid: nat)
      requires old(Valid()) && sid < |objs| && objs == old(objs)
      requires objs[sid].buf.backing == old(objs[sid].buf.backing)
      requires forall s :: s in objs && s != objs[sid] ==> unchanged(s) && unchanged(s.buf) && unchanged(s.buf.backing)
      requires |heap| == |objs| && heap == old(heap)[sid := old(heap)[sid].(s := heap[sid].s)]
      requires Mirrors(objs[sid], heap[sid])
      ensures AllMirrored() && Separate()
    {
      hide Mirrors, Session.View, Session.Valid, Seen, Budget.Views, Budget.Valid, Budget.Exact;
      assert forall s :: s in objs ==> s.buf.backing == old(s.buf.backing);
      forall i | 0 <= i < |objs|
        ensures Mirrors(objs[i], heap[i])
      {
        assert old(Mirrors(objs[i], heap[i]));
        assert i != sid ==> objs[i] in objs && objs[i] != objs[sid] && objs[i].buf != objs[sid].buf;
      }
    }

    /** What stays when only the indexes change. */
    twostate lemma OnlyMaps()
      requires old(Valid()) && objs == old(objs) && keys == old(keys) && fps == old(fps) && heap == old(heap)
      requires unchanged(budget)
      requires forall s :: s in objs ==> unchanged(s) && unchanged(s.buf) && unchanged(s.buf.backing)
      ensures Valid()
    {
      hide Mirrors, Session.View, Session.Valid, Cost, Bytes, Budget.Views, Budget.Valid;
      forall i | 0 <= i < |objs|
        ensures Mirrors(objs[i], heap[i])
      {
        assert objs[i] in objs && old(Mirrors(objs[i], heap[i]));
      }
      assert AllMirrored();
      StillValid();
      SameBytes(old(budget.Views()), budget.Views());
    }

    /** What stays when one session's buffer is cleared and leaves the budget. */
    twostate lemma OneLeft(sid: nat)
      requires old(Valid()) && sid < |objs|
      requires objs == old(objs) && keys == old(keys) && fps == old(fps)
      requires budget.sessions == old(budget.sessions) - {objs[sid]} && budget.Valid() && budget.Exact()
      requires fresh(objs[sid].buf.backing)
      requires forall s :: s in objs && s != objs[sid] ==> unchanged(s) && unchanged(s.buf) && unchanged(s.buf.backing)
      requires |heap| == |old(heap)| && heap == old(heap)[sid := old(heap)[sid].(s := heap[sid].s)]
      requires Mirrors(objs[sid], heap[sid]) && heap[sid].s.buf == []
      ensures Valid()
    {
      hide Mirrors, Session.View, Session.Valid, Cost, Bytes, Budget.Views, Budget.Valid, Budget.Exact;
      forall i | 0 <= i < |objs|
        ensures Mirrors(objs[i], heap[i])
      {
        assert old(Mirrors(objs[i], heap[i]));
        assert i != sid ==> objs[i] in objs && objs[i] != objs[sid] && heap[i] == old(heap)[i];
      }
      assert AllMirrored();
      StillValid();
    }

    /** What stays when a session is added. */
    twostate lemma OneAdded(new s: Session, r: Rec)
      requires old(Valid()) && fresh(s) && fresh(s.buf) && fresh(s.buf.backing) && s.budget == budget
      requires objs == old(objs) + [s] && heap == old(heap) + [r]
      requires keys == old(keys) + [r.key] && fps == old(fps) + [r.fp]
      requires budget.sessions == old(budget.sessions) + {s} && budget.Valid() && budget.Exact()
      requires forall t :: t in old(objs) ==> unchanged(t) && unchanged(t.buf) && unchanged(t.buf.backing)
      requires Mirrors(s, r)
      ensures Valid()
    {
      hide Mirrors, Session.View, Session.Valid, Cost, Bytes, Budget.Views, Budget.Valid, Budget.Exact;
      forall i | 0 <= i < |objs|
        ensures Mirrors(objs[i], heap[i])
      {
        if i < |old(objs)| {
          assert old(Mirrors(objs[i], heap[i]));
          assert objs[i] == old(objs)[i] && objs[i] in old(objs) && heap[i] == old(heap)[i];
        } else {
          assert objs[i] == s && heap[i] == r;
        }
      }
      assert AllMirrored();
      StillValid();
    }

    /** A session shares nothing with the others. */
    lemma Others(s: Session)
      requires Separate() && s in objs
      ensures forall t :: t in objs && t != s ==> t.buf != s.buf && t.buf.backing != s.buf.backing
    {}

    lemma StillValid()
      requires Separate() && |heap| == |objs| && AllMirrored()
      requires forall s :: s in budget.sessions ==> s in objs
      ensures budget.Valid() && Seen()
    {
      hide Session.View, Session.Valid;
    }

    /** detachLocked, under the server's lock. */
    method DetachAt(l: Link, sid: nat) returns (detached: bool)
      requires Valid() && sid < |objs|
      modifies this`heap, objs[sid]
      ensures Valid() && View() == SetState(old(View()), sid, Detach(old(heap)[sid].s, l))
      ensures detached == (old(heap)[sid].s.link == Some(l))
    {
      hide Session.View, Session.Valid, LineBuffer.Valid, Budget.Valid, Budget.Views, Bytes;
      var s := objs[sid];
      Shown(s, heap[sid]);
      Others(s);
      detached := s.DetachLocked(l);
      heap := heap[sid := heap[sid].(s := Detach(heap[sid].s, l))];
      OneMoved(sid);
    }

    method AttachAt(l: Link, handle: string, sid: nat)
      requires Valid() && sid < |objs|
      modifies this`heap, objs[sid]
      ensures Valid() && View() == SetState(old(View()), sid, Attach(old(heap)[sid].s, l, handle))
    {
      hide Session.View, Session.Valid, LineBuffer.Valid, Budget.Valid, Budget.Views, Bytes, Attach;
      var s := objs[sid];
      Others(s);
      AttachShape(heap[sid].s, l, handle);
      s.AttachLocked(l, handle);
      heap := heap[sid := heap[sid].(s := Attach(heap[sid].s, l, handle))];
      OneMoved(sid);
    }

    method ShutdownAt(reason: string, sid: nat)
      requires Valid() && sid < |objs|
      modifies this`heap, objs[sid]
      ensures Valid() && View() == SetState(old(View()), sid, Shutdown(old(heap)[sid].s, reason))
    {
      hide Session.View, Session.Valid, LineBuffer.Valid, Budget.Valid, Budget.Views, Bytes;
      var s := objs[sid];
      Others(s);
      var l, did := s.Shutdown(reason);
      heap := heap[sid := heap[sid].(s := Shutdown(heap[sid].s, reason))];
      OneMoved(sid);
    }

    method RequestCloseAt(l: Link, sid: nat)
      requires Valid() && sid < |objs|
      modifies this`heap, objs[sid]
      ensures Valid() && View() == SetState(old(View()), sid, RequestClose(old(heap)[sid].s, l))
    {
      hide Session.View, Session.Valid, LineBuffer.Valid, Budget.Valid, Budget.Views, Bytes;
      var s := objs[sid];
      Others(s);
      s.RequestClose(l);
      heap := heap[sid := heap[sid].(s := RequestClose(heap[sid].s, l))];
      OneMoved(sid);
    }

    /** forgetLocked: out of both indexes, handle by handle; the buffer is cleared, and the
        session leaves the budget with what it held. */
    method ForgetLocked(sid: nat)
      requires Valid() && sid < |objs|
      modifies this`heap, this`sessions, this`byHandle, budget`used, budget`sessions, objs[sid].buf
      ensures Valid() && View() == Forget(old(View()), sid)
      ensures budget.sessions == old(budget.sessions) - {objs[sid]}
    {
      hide Session.View, Session.Valid, LineBuffer.Valid, Budget.Valid, Budget.Views, Bytes;
      var s := objs[sid];
      Shown(s, heap[sid]);
      Unlist(sid);
      Cleared(sid);
    }

    /** The session's key and handles leave the indexes. */
    method Unlist(sid: nat)
      requires Valid() && sid < |objs|
      modifies this`sessions, this`byHandle
      ensures Valid()
      ensures sessions == var k := heap[sid].key;
        if k in old(sessions) && old(sessions)[k] == sid then old(sessions) - {k} else old(sessions)
      ensures byHandle == Without(old(byHandle), heap[sid].s.handles, sid)
    {
      hide Session.View, Session.Valid, LineBuffer.Valid, Budget.Valid, Budget.Views, Bytes, Mirrors, Separate, Seen;
      hide Budget.Exact;
      Shown(objs[sid], heap[sid]);
      if keys[sid] in sessions && sessions[keys[sid]] == sid {
        sessions := sessions - {keys[sid]};
      }
      var handles := objs[sid].handles;
      for i := 0 to |handles|
        modifies this`byHandle
        invariant byHandle == Without(old(byHandle), handles[..i], sid)
      {
        var h := handles[i];
        assert handles[..i + 1] == handles[..i] + [h];
        if h in byHandle && byHandle[h] == sid {
          byHandle := byHandle - {h};
        }
      }
      assert handles[..|handles|] == handles;
      OnlyMaps();
    }

    /** Its buffer is cleared and refunded. */
    method Cleared(sid: nat)
      requires Valid() && sid < |objs|
      modifies this`heap, budget`used, budget`sessions, objs[sid].buf
      ensures Valid() && View() == SetState(old(View()), sid, old(heap)[sid].s.(buf := []))
      ensures budget.sessions == old(budget.sessions) - {objs[sid]}
    {
      hide Session.View, Session.Valid, LineBuffer.Valid, Budget.Valid, Budget.Views, Budget.Exact, Bytes, Cost;
      var s := objs[sid];
      Others(s);
      budget.Forget(s);
      heap := heap[sid := heap[sid].(s := heap[sid].s.(buf := []))];
      OneLeft(sid);
    }

    /** A new session for a connect that dials. */
    method Register(l: Link, key: string, handle: string, fp: string)
      requires Valid()
      modifies this`objs, this`keys, this`fps, this`heap, this`sessions, this`byHandle, budget`sessions
      ensures Valid() && View() == Fresh(old(View()), l, key, handle, fp)
      ensures |objs| == |old(objs)| + 1 && objs[..|old(objs)|] == old(objs) && fresh(objs[|old(objs)|])
    {
      hide Valid, New;
      Enlist(key, handle, |objs|);
      Add(l, key, handle, fp);
    }

    method Enlist(key: string, handle: string, sid: nat)
      requires Valid()
      modifies this`sessions, this`byHandle
      ensures Valid() && sessions == old(sessions)[key := sid] && byHandle == old(byHandle)[handle := sid]
    {
      hide Mirrors, Separate, Seen, Budget.Valid, Budget.Views, Budget.Exact;
      sessions := sessions[key := sid];
      byHandle := byHandle[handle := sid];
      OnlyMaps();
    }

    method Add(l: Link, key: string, handle: string, fp: string)
      requires Valid()
      modifies this`objs, this`keys, this`fps, this`heap, budget`sessions
      ensures Valid() && heap == old(heap) + [Rec(key, fp, New(l, handle))]
      ensures |objs| == |old(objs)| + 1 && objs[..|old(objs)|] == old(objs) && fresh(objs[|old(objs)|])
      ensures |old(objs)| == |old(heap)|
    {
      hide Session.View, Session.Valid, LineBuffer.Valid, Budget.Valid, Budget.Views, Budget.Exact, Bytes, Mirrors, New;
      var s := budget.Admit(cap, l, handle);
      IsMirror(s, Rec(key, fp, New(l, handle)));
      objs, keys, fps := objs + [s], keys + [key], fps + [fp];
      heap := heap + [Rec(key, fp, New(l, handle))];
      OneAdded(s, Rec(key, fp, New(l, handle)));
    }

    // --- The handlers ---

    predicate IndexesInRange()
      reads this
    {
      && (forall k :: k in sessions ==> sessions[k] < |objs|)
      && (forall h :: h in byHandle ==> byHandle[h] < |objs|)
    }

    /** handleConnect, whose address parses or not; ok is false when the frame is refused.
        `told` is the link that gets a detached frame, and the handle it lost. */
    method HandleConnect(l: Link, id: string, handle: string, addrOk: bool, fp: string)
      returns (ok: bool, told: Option<(Link, string)>)
      requires Valid() && l in links && IndexesInRange()
      modifies this`objs, this`keys, this`fps, this`heap, this`sessions, this`byHandle, budget`used, budget`sessions,
               objs, set s | s in objs :: s.buf
      ensures Valid()
      ensures ok == (addrOk && !closed && !Refused(old(View()), l, id, handle))
      ensures ok == (addrOk && !closed && !TurnedAway(old(View()), l, id, handle))
      ensures View() == if ok then Connect(old(View()), l, id, handle, fp) else old(View())
      ensures told == if ok then Displaced(old(View()), l, id) else None
    {
      hide Valid, Forget, Without, Attach, SessionSpec.Reusable, Fresh, Reattach, Replace;
      InStep();
      RefusedIff(View(), l, id, handle);
      hide TurnedAway;
      if id == "" || handle == "" || !addrOk || closed {
        return false, None;
      }
      var key := Key(links[l].instance, id);
      if handle in byHandle {
        return false, None;
      }
      told := None;
      if key in sessions {
        var sid := sessions[key];
        ShownAt(sid);
        var holder := objs[sid].link;
        if holder.Some? && holder.value != l && holder.value in links && links[holder.value].gen > links[l].gen {
          return false, None;
        }
        if holder.Some? {
          told := Some((holder.value, objs[sid].handle));
        }
        if objs[sid].Reusable() && fps[sid] == fp {
          TakeOver(l, sid, handle);
          return true, told;
        }
        ReplaceAt(sid);
      }
      Register(l, key, handle, fp);
      return true, told;
    }

    lemma InStep()
      requires Valid()
      ensures |objs| == |heap| == |fps| == |keys|
    {}

    lemma ShownAt(sid: nat)
      requires Valid() && sid < |objs|
      ensures |heap| == |objs| == |fps| && heap[sid].fp == fps[sid]
      ensures var s, r := objs[sid], heap[sid].s;
        && r.link == s.link && r.conn == s.conn && r.handle == s.handle
        && (SessionSpec.Reusable(r) <==> s.Reusable())
    {
      hide Session.View, Session.Valid, LineBuffer.Valid, Budget.Valid, Budget.Views, Budget.Exact, Separate, Seen;
      Shown(objs[sid], heap[sid]);
    }

    /** The re-attaching branch of handleConnect. */
    method TakeOver(l: Link, sid: nat, handle: string)
      requires Valid() && sid < |objs|
      modifies this`heap, this`byHandle, objs[sid]
      ensures Valid() && View() == Reattach(old(View()), l, sid, handle)
    {
      hide Valid, Attach;
      InStep();
      Rehandle(sid, handle);
      AttachAt(l, handle, sid);
    }

    method Rehandle(sid: nat, handle: string)
      requires Valid() && sid < |objs|
      modifies this`byHandle
      ensures Valid() && |heap| == |objs|
      ensures byHandle == Without(old(byHandle), [heap[sid].s.handle], sid)[handle := sid]
    {
      hide Mirrors, Separate, Seen, Budget.Valid, Budget.Views, Budget.Exact;
      ShownAt(sid);
      var was := objs[sid].handle;
      if was in byHandle && byHandle[was] == sid {
        byHandle := byHandle - {was};
      }
      byHandle := byHandle[handle := sid];
      OnlyMaps();
    }

    /** Its replacing branch. */
    method ReplaceAt(sid: nat)
      requires Valid() && sid < |objs|
      modifies this`heap, this`sessions, this`byHandle, budget`used, budget`sessions, objs[sid], objs[sid].buf
      ensures Valid() && View() == Replace(old(View()), sid)
    {
      hide Valid, Forget, Detach, Shutdown;
      ShownAt(sid);
      ghost var was := View();
      var holder := objs[sid].link;
      if holder.Some? {
        var detached := DetachAt(holder.value, sid);
      } else {
        assert SetState(was, sid, was.heap[sid].s) == was;
      }
      assert View() == SetState(was, sid, Claims.Release(was.heap[sid].s));
      InStep();
      ShutdownAt("replaced by a new connection", sid);
      assert View() == SetState(was, sid, Shutdown(Claims.Release(was.heap[sid].s), "replaced by a new connection"));
      ForgetLocked(sid);
    }

    /** handleWrite's decision. */
    method MayWrite(l: Link, handle: string) returns (ok: bool)
      requires Valid() && IndexesInRange()
      ensures ok <==> handle in byHandle && WriteAllowed(View(), l, handle, byHandle[handle])
      ensures ok <==> handle in byHandle
                      && var s := objs[byHandle[handle]]; s.handle == handle && s.link == Some(l) && s.conn == Open
    {
      hide Valid;
      InStep();
      if handle !in byHandle {
        return false;
      }
      ShownAt(byHandle[handle]);
      var s := objs[byHandle[handle]];
      ok := s.handle == handle && s.link == Some(l) && s.conn.Open?;
    }

    /** handleDetach. */
    method HandleDetach(l: Link, handle: string)
      requires Valid() && IndexesInRange()
      modifies this`heap, this`sessions, this`byHandle, budget`used, budget`sessions, objs, set s | s in objs :: s.buf
      ensures Valid() && View() == DetachFrame(old(View()), l, handle)
    {
      hide Valid, Forget;
      InStep();
      if handle !in byHandle {
        return;
      }
      var sid := byHandle[handle];
      ShownAt(sid);
      if objs[sid].handle != handle {
        return;
      }
      LeaveOne(l, sid);
    }

    /** handleClose up to where it lets go of the lock; the session is then still to be
        shut down and forgotten. */
    method HandleClose(l: Link, id: string, handle: string) returns (toEnd: Option<nat>)
      requires Valid() && l in links && IndexesInRange()
      modifies this`heap, this`closing, objs
      ensures Valid() && View() == CloseFrame(old(View()), l, id, handle)
      ensures toEnd.Some? <==> exists sid :: CloseAccepted(old(View()), l, id, handle, sid)
      ensures toEnd.Some? ==> CloseAccepted(old(View()), l, id, handle, toEnd.value)
    {
      hide Valid;
      InStep();
      var key := Key(links[l].instance, id);
      if key !in sessions {
        return None;
      }
      var sid := sessions[key];
      ShownAt(sid);
      var s := objs[sid];
      if !(s.handle == handle && (s.link == None || s.link == Some(l))) {
        return None;
      }
      MarkClosing(sid);
      RequestCloseAt(l, sid);
      return Some(sid);
    }

    method MarkClosing(sid: nat)
      requires Valid()
      modifies this`closing
      ensures Valid() && closing == old(closing) + {sid}
    {
      hide Mirrors, Separate, Seen, Budget.Valid, Budget.Views, Budget.Exact;
      closing := closing + {sid};
      OnlyMaps();
    }

    /** The writer's turn at a session: a link that lost it is handed nothing; the holder is
        handed what is owed, under the one handle that leads to the session. */
    method PullFor(l: Link, sid: nat, limit: nat) returns (out: seq<Frame>, done: bool, stale: bool)
      requires Valid() && sid < |objs|
      modifies this`heap, objs[sid]
      ensures Valid() && stale == (old(heap)[sid].s.link != Some(l))
      ensures stale ==> out == [] && !done && View() == old(View())
      ensures !stale ==>
        && out == PullFrames(old(heap)[sid].s, limit) && done == ClosesNow(old(heap)[sid].s, limit)
        && View() == SetState(old(View()), sid, Apply(old(heap)[sid].s, Pulled(limit)))
      ensures !stale && ClaimsInv(old(View())) && Alive(old(View()), sid) ==>
        byHandle == old(byHandle) && old(heap)[sid].s.handle in byHandle && byHandle[old(heap)[sid].s.handle] == sid
    {
      hide Valid, ClaimsInv, Alive, PullFrames, ClosesNow, Apply;
      if ClaimsInv(View()) && Alive(View(), sid) {
        HolderIsIndexed(View(), sid);
      }
      out, done, stale := PullAt(l, sid, limit);
    }

    method PullAt(l: Link, sid: nat, limit: nat) returns (out: seq<Frame>, done: bool, stale: bool)
      requires Valid() && sid < |objs|
      modifies this`heap, objs[sid]
      ensures Valid() && |old(heap)| == |objs| && stale == (old(heap)[sid].s.link != Some(l))
      ensures stale ==> out == [] && !done && heap == old(heap)
      ensures !stale ==>
        && out == PullFrames(old(heap)[sid].s, limit) && done == ClosesNow(old(heap)[sid].s, limit)
        && View() == SetState(old(View()), sid, Apply(old(heap)[sid].s, Pulled(limit)))
    {
      hide Session.View, Session.Valid, LineBuffer.Valid, Budget.Valid, Budget.Views, Budget.Exact, Seen, Bytes,
           PullFrames, ClosesNow, SessionSpec.Pull, Reusable;
      var s := objs[sid];
      Shown(s, heap[sid]);
      Others(s);
      PullKeepsBuf(heap[sid].s, limit);
      out, done, stale := s.PullOwed(l, limit);
      ghost var now := if stale then heap[sid].s else SessionSpec.Pull(heap[sid].s, limit);
      assert stale ==> heap == heap[sid := heap[sid].(s := now)];
      heap := heap[sid := heap[sid].(s := now)];
      OneMoved(sid);
    }

    /** link.close: every session the link held is detached, and a closed one goes. */
    method CloseLink(l: Link, held: seq<nat>)
      requires Valid() && forall i :: 0 <= i < |held| ==> held[i] < |objs|
      modifies this`heap, this`sessions, this`byHandle, budget`used, budget`sessions, objs, set s | s in objs :: s.buf
      ensures Valid() && View() == DropAll(old(View()), l, held)
    {
      hide Valid, Forget, LetGo;
      for i := 0 to |held|
        invariant Valid() && objs == old(objs)
        invariant DropAll(View(), l, held[i..]) == DropAll(old(View()), l, held)
      {
        assert held[i..][1..] == held[i + 1..];
        InStep();
        LeaveOne(l, held[i]);
      }
    }

    /** One session is let go of; one that has closed is forgotten with it. */
    method LeaveOne(l: Link, sid: nat)
      requires Valid() && sid < |objs|
      modifies this`heap, this`sessions, this`byHandle, budget`used, budget`sessions, objs[sid], objs[sid].buf
      ensures Valid() && |heap| == |objs| && View() == LetGo(old(View()), l, sid)
    {
      hide Valid, Forget;
      ShownAt(sid);
      var detached := DetachAt(l, sid);
      if !detached {
        return;
      }
      ShownAt(sid);
      if objs[sid].conn.Closed? {
        ForgetLocked(sid);
      }
      InStep();
    }
  }

  /** Session s is what the record says. */
  ghost predicate Mirrors(s: Session, r: Rec)
    reads s, s.buf, s.buf.backing
  {
    s.Valid() && r.s == s.View()
  }

  lemma PullKeepsBuf(s: State, limit: nat)
    ensures SessionSpec.Pull(s, limit).buf == s.buf
  {
    hide SentAfter, ClosesNow;
  }

  lemma HolderIsIndexed(v: Registry, sid: nat)
    requires ClaimsInv(v) && Alive(v, sid)
    ensures v.heap[sid].s.handle in v.byHandle && v.byHandle[v.heap[sid].s.handle] == sid
  {
    assert RecOk(v, sid);
  }

  lemma IsMirror(s: Session, r: Rec)
    requires s.Valid() && r.s == s.View()
    ensures Mirrors(s, r)
  {}

  lemma Shown(s: Session, r: Rec)
    requires Mirrors(s, r)
    ensures r.s.link == s.link && r.s.conn == s.conn && r.s.handle == s.handle && r.s.handles == s.handles
    ensures Reusable(r.s) <==> s.Reusable()
  {
    hide Bounded, Cost, Sorted;
  }

  lemma SameBytes(v: map<Session, State>, w: map<Session, State>)
    requires v.Keys == w.Keys && forall s :: s in v ==> v[s].buf == w[s].buf
    ensures Bytes(v) == Bytes(w)
  {
    hide Cost;
    assert Sizes(v) == Sizes(w);
  }
}
