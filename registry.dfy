/** The state of the WebSocket connection manager as a value: the list of
    active connections and, per session id, the list of connections
    watching that session. Each operation of the manager is a function from
    the old state to the new one; the class that holds the state in place
    is proved against these functions. */
module Registry {
  import opened Common
  import opened Query

  /** A client connection, known only by its identity. */
  type Conn = nat

  datatype Connections = Connections(active: seq<Conn>, sessions: map<string, seq<Conn>>)

  /** The registry invariant: no session id maps to an empty list. */
  predicate NoEmptySession(g: Connections) {
    forall sid :: sid in g.sessions ==> g.sessions[sid] != []
  }

  /** The connections watching `sid` (none when the key is absent). */
  function Watchers(g: Connections, sid: string): seq<Conn> {
    if sid in g.sessions then g.sessions[sid] else []
  }

  /** `list.remove(x)` behind an `x in list` guard: the first occurrence of
      `x` is dropped, and a list without `x` is left as it is. */
  function RemoveFirst(s: seq<Conn>, x: Conn): (r: seq<Conn>)
    ensures x !in s ==> r == s
    ensures |r| == if x in s then |s| - 1 else |s|
  {
    if s == [] then []
    else if s[0] == x then s[1..]
    else [s[0]] + RemoveFirst(s[1..], x)
  }

  /** `RemoveFirst` takes exactly one `x` out of the multiset of entries
      (none, if there is none). */
  lemma {:induction false} RemoveFirstCount(s: seq<Conn>, x: Conn)
    ensures multiset(RemoveFirst(s, x)) == multiset(s) - multiset{x}
  {
    if s != [] {
      assert s == [s[0]] + s[1..];
      if s[0] != x {
        RemoveFirstCount(s[1..], x);
      }
    }
  }

  /** The position of the first `x` in `s`. */
  function FirstIndex(s: seq<Conn>, x: Conn): (i: nat)
    requires x in s
    ensures i < |s| && s[i] == x && x !in s[..i]
  {
    if s[0] == x then 0
    else
      var i := 1 + FirstIndex(s[1..], x);
      assert s[..i] == [s[0]] + s[1..][..i - 1];
      i
  }

  /** The occurrence that `RemoveFirst` drops is the first one, and the
      elements around it keep their order. */
  lemma {:induction false} RemoveFirstSplits(s: seq<Conn>, x: Conn)
    requires x in s
    ensures RemoveFirst(s, x) == s[..FirstIndex(s, x)] + s[FirstIndex(s, x) + 1..]
  {
    if s[0] != x {
      var i := FirstIndex(s[1..], x);
      RemoveFirstSplits(s[1..], x);
      assert s[1..][..i] == s[1..i + 1];
      assert s[1..][i + 1..] == s[i + 2..];
      assert s[..i + 1] == [s[0]] + s[1..i + 1];
    }
  }

  /** Removing the last element, when it occurs nowhere before. */
  lemma {:induction false} RemoveFirstOfLast(s: seq<Conn>, a: Conn)
    requires a !in s
    ensures RemoveFirst(s + [a], a) == s
  {
    if s != [] {
      assert (s + [a])[1..] == s[1..] + [a];
      RemoveFirstOfLast(s[1..], a);
      assert s == [s[0]] + s[1..];
    }
  }

  /** Removing an element that occurs in `s` leaves an appended element in
      place. */
  lemma {:induction false} RemoveFirstBeforeLast(s: seq<Conn>, a: Conn, d: Conn)
    requires d in s
    ensures RemoveFirst(s + [a], d) == RemoveFirst(s, d) + [a]
  {
    assert (s + [a])[0] == s[0];
    if s[0] != d {
      assert (s + [a])[1..] == s[1..] + [a];
      RemoveFirstBeforeLast(s[1..], a, d);
    } else {
      assert (s + [a])[1..] == s[1..] + [a];
    }
  }

  /** `connect`: the connection is appended to the active list and, when a
      non-empty session id is given, to the end of that session's list,
      which is created when absent. */
  function AfterConnect(g: Connections, c: Conn, sessionId: Option<string>): (r: Connections)
    ensures r.active == g.active + [c]
    ensures forall sid :: Watchers(r, sid) == Watchers(g, sid) + (if Truthy(sessionId) && sid == sessionId.value then [c] else [])
    ensures r.sessions.Keys == g.sessions.Keys + (if Truthy(sessionId) then {sessionId.value} else {})
    ensures NoEmptySession(g) ==> NoEmptySession(r)
  {
    if Truthy(sessionId) then
      Connections(g.active + [c], g.sessions[sessionId.value := Watchers(g, sessionId.value) + [c]])
    else
      Connections(g.active + [c], g.sessions)
  }

  /** `disconnect`: one occurrence of the connection leaves the active list
      (none, if it is not there). With a non-empty session id that is
      registered, one occurrence also leaves that session's list, and the
      key goes when its list is left empty. Every other session is
      untouched. */
  function AfterDisconnect(g: Connections, c: Conn, sessionId: Option<string>): (r: Connections)
    ensures r.active == RemoveFirst(g.active, c)
    ensures Truthy(sessionId) ==> Watchers(r, sessionId.value) == RemoveFirst(Watchers(g, sessionId.value), c)
    ensures Truthy(sessionId) ==> (sessionId.value in r.sessions <==> Watchers(r, sessionId.value) != [])
    ensures forall sid :: !(Truthy(sessionId) && sid == sessionId.value) ==>
              (sid in r.sessions <==> sid in g.sessions) && Watchers(r, sid) == Watchers(g, sid)
    ensures !Truthy(sessionId) ==> r.sessions == g.sessions
    ensures NoEmptySession(g) ==> NoEmptySession(r)
  {
    var active := RemoveFirst(g.active, c);
    if Truthy(sessionId) && sessionId.value in g.sessions then
      var rest := RemoveFirst(g.sessions[sessionId.value], c);
      if rest == [] then Connections(active, g.sessions - {sessionId.value})
      else Connections(active, g.sessions[sessionId.value := rest])
    else
      Connections(active, g.sessions)
  }

  /** A `subscribe` request on the global endpoint: the connection is
      appended to the session's list, created when absent, with no check
      for an empty id or a repeated subscription. */
  function AfterSubscribe(g: Connections, c: Conn, sessionId: string): (r: Connections)
    ensures r.active == g.active
    ensures Watchers(r, sessionId) == Watchers(g, sessionId) + [c]
    ensures forall sid :: sid != sessionId ==> Watchers(r, sid) == Watchers(g, sid)
    ensures r.sessions.Keys == g.sessions.Keys + {sessionId}
    ensures NoEmptySession(g) ==> NoEmptySession(r)
  {
    Connections(g.active, g.sessions[sessionId := Watchers(g, sessionId) + [c]])
  }

  /** Disconnecting a connection that was just connected, and was not
      registered before, restores the registry exactly. */
  lemma DisconnectUndoesConnect(g: Connections, c: Conn, sessionId: Option<string>)
    requires NoEmptySession(g)
    requires c !in g.active
    requires Truthy(sessionId) ==> c !in Watchers(g, sessionId.value)
    ensures AfterDisconnect(AfterConnect(g, c, sessionId), c, sessionId) == g
  {
    RemoveFirstOfLast(g.active, c);
    if Truthy(sessionId) {
      RemoveFirstOfLast(Watchers(g, sessionId.value), c);
    }
  }

  /** The session entries a connection leaves behind when it disconnects
      without naming a session: every subscription survives. */
  lemma DisconnectWithoutSessionKeepsSubscriptions(g: Connections, c: Conn, sessionId: string)
    ensures c in Watchers(AfterDisconnect(AfterSubscribe(g, c, sessionId), c, None), sessionId)
  {
  }

  /** One `disconnect` per entry of `ds`, in order. */
  function DisconnectAll(g: Connections, ds: seq<Conn>, sessionId: Option<string>): (r: Connections)
    ensures r.active == RemoveEach(g.active, ds)
    ensures !Truthy(sessionId) ==> r.sessions == g.sessions
    ensures forall sid :: !(Truthy(sessionId) && sid == sessionId.value) ==>
              (sid in r.sessions <==> sid in g.sessions) && Watchers(r, sid) == Watchers(g, sid)
    ensures NoEmptySession(g) ==> NoEmptySession(r)
  {
    if ds == [] then g
    else AfterDisconnect(DisconnectAll(g, ds[..|ds| - 1], sessionId), ds[|ds| - 1], sessionId)
  }

  /** The list after removing one occurrence of each entry of `ds`, in order. */
  function RemoveEach(s: seq<Conn>, ds: seq<Conn>): seq<Conn> {
    if ds == [] then s
    else RemoveFirst(RemoveEach(s, ds[..|ds| - 1]), ds[|ds| - 1])
  }

  /** `RemoveEach` takes one occurrence of every entry of `ds` out of the
      multiset of entries, as far as there are occurrences to take. */
  lemma {:induction false} RemoveEachCount(s: seq<Conn>, ds: seq<Conn>)
    ensures multiset(RemoveEach(s, ds)) == multiset(s) - multiset(ds)
  {
    if ds != [] {
      var init, d := ds[..|ds| - 1], ds[|ds| - 1];
      assert ds == init + [d];
      RemoveEachCount(s, init);
      RemoveFirstCount(RemoveEach(s, init), d);
    }
  }

  /** Removing entries that all occur in `s` leaves an appended element in
      place. */
  lemma {:induction false} RemoveEachBeforeLast(s: seq<Conn>, a: Conn, ds: seq<Conn>)
    requires multiset(ds) <= multiset(s)
    ensures RemoveEach(s + [a], ds) == RemoveEach(s, ds) + [a]
  {
    if ds != [] {
      var init, d := ds[..|ds| - 1], ds[|ds| - 1];
      assert ds == init + [d];
      RemoveEachBeforeLast(s, a, init);
      RemoveEachCount(s, init);
      assert d in multiset(RemoveEach(s, init));
      RemoveFirstBeforeLast(RemoveEach(s, init), a, d);
    }
  }

  function FailsIn(failing: set<Conn>): Conn -> bool {
    (c: Conn) => c in failing
  }

  function KeptIn(failing: set<Conn>): Conn -> bool {
    (c: Conn) => c !in failing
  }

  /** Removing, one by one, every entry whose send failed leaves exactly the
      entries whose send succeeded, in their original order. */
  lemma {:induction false} RemoveFailed(s: seq<Conn>, failing: set<Conn>)
    ensures RemoveEach(s, Filter(s, FailsIn(failing))) == Filter(s, KeptIn(failing))
  {
    if s != [] {
      var init, a := s[..|s| - 1], s[|s| - 1];
      var failed, kept := Filter(init, FailsIn(failing)), Filter(init, KeptIn(failing));
      assert s == init + [a];
      RemoveFailed(init, failing);
      FilterSnoc(init, a, FailsIn(failing));
      FilterSnoc(init, a, KeptIn(failing));
      RemoveEachBeforeLast(init, a, failed);
      assert RemoveEach(s, failed) == kept + [a];
      if a in failing {
        assert Filter(s, FailsIn(failing)) == failed + [a];
        RemoveFailedLast(s, failed, kept, a);
        assert Filter(s, KeptIn(failing)) == kept;
      } else {
        assert Filter(s, FailsIn(failing)) == failed;
        assert Filter(s, KeptIn(failing)) == kept + [a];
      }
    }
  }

  /** The step of `RemoveFailed` where the last entry's send failed. */
  lemma RemoveFailedLast(s: seq<Conn>, failed: seq<Conn>, kept: seq<Conn>, a: Conn)
    requires RemoveEach(s, failed) == kept + [a]
    requires a !in kept
    ensures RemoveEach(s, failed + [a]) == kept
  {
    assert (failed + [a])[..|failed|] == failed;
    RemoveFirstOfLast(kept, a);
  }

  /** Disconnecting, with a registered non-empty session id, connections
      that all occur in that session's list: each leaves the list once, and
      the key goes exactly when the list is left empty. */
  lemma {:induction false} DisconnectAllFromSession(g: Connections, ds: seq<Conn>, sessionId: string)
    requires sessionId != "" && sessionId in g.sessions && g.sessions[sessionId] != []
    requires multiset(ds) <= multiset(g.sessions[sessionId])
    ensures var rest := RemoveEach(g.sessions[sessionId], ds);
            DisconnectAll(g, ds, Some(sessionId)).sessions ==
              if rest == [] then g.sessions - {sessionId} else g.sessions[sessionId := rest]
  {
    if ds != [] {
      var init, d := ds[..|ds| - 1], ds[|ds| - 1];
      assert ds == init + [d];
      assert multiset(ds) == multiset(init) + multiset{d};
      DisconnectAllFromSession(g, init, sessionId);
      var before := RemoveEach(g.sessions[sessionId], init);
      RemoveEachCount(g.sessions[sessionId], init);
      assert d in multiset(before);
      DisconnectFromSessionStep(g, DisconnectAll(g, init, Some(sessionId)), sessionId, before, d);
    } else {
      assert g.sessions[sessionId := g.sessions[sessionId]] == g.sessions;
    }
  }

  /** One step of `DisconnectAllFromSession`. */
  lemma DisconnectFromSessionStep(g: Connections, mid: Connections, sessionId: string, before: seq<Conn>, d: Conn)
    requires sessionId != "" && d in before
    requires mid.sessions == g.sessions[sessionId := before]
    ensures var rest := RemoveFirst(before, d);
            AfterDisconnect(mid, d, Some(sessionId)).sessions ==
              if rest == [] then g.sessions - {sessionId} else g.sessions[sessionId := rest]
  {
    var rest := RemoveFirst(before, d);
    if rest == [] {
      assert mid.sessions - {sessionId} == g.sessions - {sessionId};
    } else {
      assert mid.sessions[sessionId := rest] == g.sessions[sessionId := rest];
    }
  }

  /** `broadcast`: a send is attempted on every active connection; those
      whose send failed are disconnected without a session id. The active
      list keeps exactly the successful connections, in order, and the
      session lists are not touched. */
  function AfterBroadcast(g: Connections, failing: set<Conn>): (r: Connections)
    ensures r.active == Filter(g.active, KeptIn(failing))
    ensures r.sessions == g.sessions
    ensures NoEmptySession(g) ==> NoEmptySession(r)
  {
    RemoveFailed(g.active, failing);
    DisconnectAll(g, Filter(g.active, FailsIn(failing)), None)
  }

  /** `broadcast_to_session`: nothing happens for an unregistered session.
      Otherwise a send is attempted on every connection of the session's
      list, and each failed one is disconnected with the session id: it
      leaves the active list once and, for a non-empty id, the session's
      list, which keeps exactly the successful connections in order and is
      deleted when none is left. An empty id is never cleaned up. */
  function AfterBroadcastToSession(g: Connections, sessionId: string, failing: set<Conn>): (r: Connections)
    ensures sessionId !in g.sessions ==> r == g
    ensures r.active == RemoveEach(g.active, Filter(Watchers(g, sessionId), FailsIn(failing)))
    ensures sessionId in g.sessions && sessionId != "" && NoEmptySession(g) ==>
              && Watchers(r, sessionId) == Filter(Watchers(g, sessionId), KeptIn(failing))
              && (sessionId in r.sessions <==> Watchers(r, sessionId) != [])
    ensures forall sid :: sid != sessionId ==> (sid in r.sessions <==> sid in g.sessions) && Watchers(r, sid) == Watchers(g, sid)
    ensures sessionId == "" ==> r.sessions == g.sessions
    ensures NoEmptySession(g) ==> NoEmptySession(r)
  {
    var failed := Filter(Watchers(g, sessionId), FailsIn(failing));
    if sessionId in g.sessions && sessionId != "" && g.sessions[sessionId] != [] then
      DisconnectAllFromSession(g, failed, sessionId);
      RemoveFailed(Watchers(g, sessionId), failing);
      DisconnectAll(g, failed, Some(sessionId))
    else
      DisconnectAll(g, failed, Some(sessionId))
  }
}
