/** The WebSocket side of the dashboard: the connection manager that holds
    the registry in place, the two endpoints that serve a connection until
    it closes, and the payloads of the events the backend pushes. */
module Websocket {
  import opened Common
  import opened Query
  import opened Registry

  /** A JSON value as it is received or sent. `Raw` is a document stored
      as text in the database; `Stamp` is the ISO-8601 rendering of a
      clock value. Both occur only in outgoing payloads. */
  datatype Value =
    | Null
    | Bool(b: bool)
    | Int(i: int)
    | Num(x: real)
    | Str(s: string)
    | Arr(items: seq<Value>)
    | Obj(fields: map<string, Value>)
    | Raw(doc: Json)
    | Stamp(t: Time)

  /** The text every broadcast sends: the event name, its payload, the
      session id for a session broadcast, and the time of sending. */
  datatype Envelope = Envelope(event: string, data: map<string, Value>, sessionId: Option<string>, timestamp: Time)

  class ConnectionManager {
    var active: seq<Conn>
    var sessions: map<string, seq<Conn>>

    function State(): Connections
      reads this
    {
      Connections(active, sessions)
    }

    /** The global manager at start-up: nobody connected. */
    constructor ()
      ensures State() == Connections([], map[])
      ensures NoEmptySession(State())
    {
      active := [];
      sessions := map[];
    }

    method Connect(c: Conn, sessionId: Option<string>)
      modifies this
      ensures State() == AfterConnect(old(State()), c, sessionId)
    {
      active := active + [c];
      if Truthy(sessionId) {
        var sid := sessionId.value;
        if sid !in sessions {
          sessions := sessions[sid := []];
        }
        sessions := sessions[sid := sessions[sid] + [c]];
      }
    }

    method Disconnect(c: Conn, sessionId: Option<string>)
      modifies this
      ensures State() == AfterDisconnect(old(State()), c, sessionId)
    {
      if c in active {
        active := RemoveFirst(active, c);
      }
      if Truthy(sessionId) && sessionId.value in sessions {
        var sid := sessionId.value;
        if c in sessions[sid] {
          sessions := sessions[sid := RemoveFirst(sessions[sid], c)];
        }
        if sessions[sid] == [] {
          sessions := sessions - {sid};
        }
      }
    }

    /** The global endpoint's in-place subscription of a connection. */
    method Subscribe(c: Conn, sessionId: string)
      modifies this
      ensures State() == AfterSubscribe(old(State()), c, sessionId)
    {
      if sessionId !in sessions {
        sessions := sessions[sessionId := []];
      }
      sessions := sessions[sessionId := sessions[sessionId] + [c]];
    }

    /** `broadcast`: one envelope, a send attempt on every active
        connection, then a session-less disconnect of each that failed. */
    method Broadcast(event: string, data: map<string, Value>, now: Time, failing: set<Conn>)
      returns (message: Envelope, delivered: seq<Conn>)
      modifies this
      ensures message == Envelope(event, data, None, now)
      ensures delivered == Filter(old(active), KeptIn(failing))
      ensures State() == AfterBroadcast(old(State()), failing)
    {
      message := Envelope(event, data, None, now);
      var connections := active;
      var disconnected;
      disconnected, delivered := TrySend(connections, failing);
      DisconnectEach(disconnected, None);
      RemoveFailed(connections, failing);
    }

    /** `broadcast_to_session`: nothing for an unregistered session;
        otherwise one envelope carrying the session id, a send attempt on
        every connection of the session's list, then a disconnect with the
        session id of each that failed. */
    method BroadcastToSession(sessionId: string, event: string, data: map<string, Value>, now: Time, failing: set<Conn>)
      returns (message: Option<Envelope>, delivered: seq<Conn>)
      modifies this
      ensures sessionId !in old(sessions) ==> message == None && delivered == []
      ensures sessionId in old(sessions) ==> message == Some(Envelope(event, data, Some(sessionId), now))
      ensures delivered == Filter(Watchers(old(State()), sessionId), KeptIn(failing))
      ensures State() == AfterBroadcastToSession(old(State()), sessionId, failing)
    {
      if sessionId !in sessions {
        return None, [];
      }
      message := Some(Envelope(event, data, Some(sessionId), now));
      var connections := sessions[sessionId];
      var disconnected;
      disconnected, delivered := TrySend(connections, failing);
      DisconnectEach(disconnected, Some(sessionId));
    }

    /** The clean-up loop of both broadcasts: disconnect each collected
        connection in turn. */
    method DisconnectEach(ds: seq<Conn>, sessionId: Option<string>)
      modifies this
      ensures State() == DisconnectAll(old(State()), ds, sessionId)
    {
      for j := 0 to |ds|
        invariant State() == DisconnectAll(old(State()), ds[..j], sessionId)
      {
        assert ds[..j + 1][..j] == ds[..j];
        Disconnect(ds[j], sessionId);
      }
      assert ds[..|ds|] == ds;
    }

    /** `websocket_endpoint`: connect without a session, then serve the
        connection's events until it closes (a session-less disconnect), a
        frame makes the handler fail (no disconnect at all), or the events
        run out. */
    method ServeGlobal(c: Conn, events: seq<Event>) returns (replies: seq<Reply>)
      modifies this
      ensures State() == GlobalEndpoint(old(State()), c, events).after
      ensures replies == GlobalEndpoint(old(State()), c, events).replies
    {
      Connect(c, None);
      ghost var final := GlobalRun(State(), c, events);
      replies := [];
      var i := 0;
      var open := true;
      while open && i < |events|
        invariant 0 <= i <= |events|
        invariant open ==> GlobalRun(State(), c, events[i..]).after == final.after
        invariant open ==> replies + GlobalRun(State(), c, events[i..]).replies == final.replies
        invariant !open ==> State() == final.after && replies == final.replies
        decreases |events| - i
      {
        assert events[i..][0] == events[i] && events[i..][1..] == events[i + 1..];
        match events[i] {
        case Closed =>
          Disconnect(c, None);
          open := false;
        case Received(f) =>
          match GlobalAction(f) {
          case Crash =>
            open := false;
          case Ignore =>
          case Answer(reply) =>
            assert replies + ([reply] + GlobalRun(State(), c, events[i + 1..]).replies)
                == replies + [reply] + GlobalRun(State(), c, events[i + 1..]).replies;
            replies := replies + [reply];
          case SubscribeTo(sid, reply) =>
            Subscribe(c, sid);
            assert replies + ([reply] + GlobalRun(State(), c, events[i + 1..]).replies)
                == replies + [reply] + GlobalRun(State(), c, events[i + 1..]).replies;
            replies := replies + [reply];
          }
        }
        i := i + 1;
      }
      if open {
        assert events[i..] == [];
      }
    }

    /** `session_websocket_endpoint`: connect with the session id from the
        path, then serve the connection's events until it closes (a
        disconnect with that id), a frame makes the handler fail, or the
        events run out. */
    method ServeSession(c: Conn, sessionId: string, events: seq<Event>) returns (replies: seq<Reply>)
      modifies this
      ensures State() == SessionEndpoint(old(State()), c, sessionId, events).after
      ensures replies == SessionEndpoint(old(State()), c, sessionId, events).replies
    {
      Connect(c, Some(sessionId));
      ghost var final := SessionRun(State(), c, sessionId, events);
      replies := [];
      var i := 0;
      var open := true;
      while open && i < |events|
        invariant 0 <= i <= |events|
        invariant open ==> SessionRun(State(), c, sessionId, events[i..]).after == final.after
        invariant open ==> replies + SessionRun(State(), c, sessionId, events[i..]).replies == final.replies
        invariant !open ==> State() == final.after && replies == final.replies
        decreases |events| - i
      {
        assert events[i..][0] == events[i] && events[i..][1..] == events[i + 1..];
        match events[i] {
        case Closed =>
          Disconnect(c, Some(sessionId));
          open := false;
        case Received(f) =>
          match SessionAction(f) {
          case Crash =>
            open := false;
          case Ignore =>
          case Answer(reply) =>
            assert replies + ([reply] + SessionRun(State(), c, sessionId, events[i + 1..]).replies)
                == replies + [reply] + SessionRun(State(), c, sessionId, events[i + 1..]).replies;
            replies := replies + [reply];
          case SubscribeTo(_, _) =>
            assert false;
          }
        }
        i := i + 1;
      }
      if open {
        assert events[i..] == [];
      }
    }
  }

  /** The send loop of both broadcasts: every connection is tried in
      order; those whose send fails are collected for clean-up, the others
      have received the message. */
  method TrySend(connections: seq<Conn>, failing: set<Conn>) returns (disconnected: seq<Conn>, delivered: seq<Conn>)
    ensures disconnected == Filter(connections, FailsIn(failing))
    ensures delivered == Filter(connections, KeptIn(failing))
  {
    disconnected, delivered := [], [];
    for i := 0 to |connections|
      invariant disconnected == Filter(connections[..i], FailsIn(failing))
      invariant delivered == Filter(connections[..i], KeptIn(failing))
    {
      assert connections[..i + 1][..i] == connections[..i];
      if connections[i] in failing {
        disconnected := disconnected + [connections[i]];
      } else {
        delivered := delivered + [connections[i]];
      }
    }
    assert connections[..|connections|] == connections;
  }

  // ------------------------------------------------------------ endpoints

  /** A text frame from the client: JSON that failed to parse, or the
      parsed value. */
  datatype Frame = Malformed | Decoded(message: Value)

  /** What happens to a connection: a frame arrives, or the client closes. */
  datatype Event = Received(frame: Frame) | Closed

  /** The answers the endpoints send back: `{"event": "pong"}` and
      `{"event": "subscribed", "session_id": ...}`. */
  datatype Reply = Pong | Subscribed(sessionId: Value)

  /** What one frame makes the endpoint do. `Crash` is an exception the
      handler does not catch: its loop ends and no disconnect is run. */
  datatype Action = Ignore | Answer(reply: Reply) | SubscribeTo(sessionId: string, reply: Reply) | Crash

  /** `message.get(key)` on a JSON object. */
  function Get(m: map<string, Value>, key: string): Option<Value> {
    if key in m then Some(m[key]) else None
  }

  /** The global endpoint's reading of one frame. Invalid JSON is ignored;
      a value that is not an object has no `get` and fails the handler; a
      `subscribe` with a `session_id` subscribes to it (a list or an
      object cannot be a dictionary key and fails the handler; a number, a
      boolean or null is echoed but names no session a broadcast reaches);
      a `ping` is answered with a pong; anything else is ignored. */
  function GlobalAction(f: Frame): (a: Action)
    ensures f.Malformed? ==> a == Ignore
    ensures f.Decoded? && !f.message.Obj? ==> a == Crash
    ensures a.SubscribeTo? <==>
              (f.Decoded? && f.message.Obj? && Get(f.message.fields, "action") == Some(Str("subscribe"))
               && Get(f.message.fields, "session_id").Some? && Get(f.message.fields, "session_id").value.Str?)
    ensures a.SubscribeTo? ==> f.message.fields["session_id"] == Str(a.sessionId) && a.reply == Subscribed(Str(a.sessionId))
    ensures a == Answer(Pong) <==>
              (f.Decoded? && f.message.Obj? && Get(f.message.fields, "action") == Some(Str("ping")))
  {
    match f
    case Malformed => Ignore
    case Decoded(Obj(m)) =>
      if Get(m, "action") == Some(Str("subscribe")) && "session_id" in m then
        match m["session_id"]
        case Str(sid) => SubscribeTo(sid, Subscribed(Str(sid)))
        case Arr(_) => Crash
        case Obj(_) => Crash
        case other => Answer(Subscribed(other))
      else if Get(m, "action") == Some(Str("ping")) then Answer(Pong)
      else Ignore
    case Decoded(_) => Crash
  }

  /** The session endpoint's reading of one frame: only `ping` is
      answered; invalid JSON and other objects are ignored, and a value
      that is not an object fails the handler. */
  function SessionAction(f: Frame): (a: Action)
    ensures !a.SubscribeTo?
    ensures f.Malformed? ==> a == Ignore
    ensures a == Crash <==> f.Decoded? && !f.message.Obj?
    ensures a == Answer(Pong) <==>
              (f.Decoded? && f.message.Obj? && Get(f.message.fields, "action") == Some(Str("ping")))
    ensures a == Ignore || a == Answer(Pong) || a == Crash
  {
    match f
    case Malformed => Ignore
    case Decoded(Obj(m)) => if Get(m, "action") == Some(Str("ping")) then Answer(Pong) else Ignore
    case Decoded(_) => Crash
  }

  /** The registry after serving a connection, and the replies sent on it. */
  datatype Run = Run(after: Connections, replies: seq<Reply>)

  /** The global endpoint's loop, from a connected state. */
  function GlobalRun(g: Connections, c: Conn, events: seq<Event>): Run
    decreases |events|
  {
    if events == [] then Run(g, [])
    else
      match events[0]
      case Closed => Run(AfterDisconnect(g, c, None), [])
      case Received(f) =>
        match GlobalAction(f)
        case Crash => Run(g, [])
        case Ignore => GlobalRun(g, c, events[1..])
        case Answer(reply) =>
          var rest := GlobalRun(g, c, events[1..]);
          Run(rest.after, [reply] + rest.replies)
        case SubscribeTo(sid, reply) =>
          var rest := GlobalRun(AfterSubscribe(g, c, sid), c, events[1..]);
          Run(rest.after, [reply] + rest.replies)
  }

  function GlobalEndpoint(g: Connections, c: Conn, events: seq<Event>): Run {
    GlobalRun(AfterConnect(g, c, None), c, events)
  }

  /** The session endpoint's loop, from a connected state. */
  function SessionRun(g: Connections, c: Conn, sessionId: string, events: seq<Event>): Run
    decreases |events|
  {
    if events == [] then Run(g, [])
    else
      match events[0]
      case Closed => Run(AfterDisconnect(g, c, Some(sessionId)), [])
      case Received(f) =>
        match SessionAction(f)
        case Crash => Run(g, [])
        case Ignore => SessionRun(g, c, sessionId, events[1..])
        case Answer(reply) =>
          var rest := SessionRun(g, c, sessionId, events[1..]);
          Run(rest.after, [reply] + rest.replies)
        case SubscribeTo(_, _) => Run(g, [])
  }

  function SessionEndpoint(g: Connections, c: Conn, sessionId: string, events: seq<Event>): Run {
    SessionRun(AfterConnect(g, c, Some(sessionId)), c, sessionId, events)
  }

  /** Serving a connection on the global endpoint keeps the registry
      invariant. */
  lemma {:induction false} GlobalRunKeepsInvariant(g: Connections, c: Conn, events: seq<Event>)
    requires NoEmptySession(g)
    ensures NoEmptySession(GlobalRun(g, c, events).after)
    decreases |events|
  {
    if events != [] && events[0].Received? {
      match GlobalAction(events[0].frame)
      case Crash =>
      case Ignore => GlobalRunKeepsInvariant(g, c, events[1..]);
      case Answer(_) => GlobalRunKeepsInvariant(g, c, events[1..]);
      case SubscribeTo(sid, _) => GlobalRunKeepsInvariant(AfterSubscribe(g, c, sid), c, events[1..]);
    }
  }

  /** The global endpoint never takes anything out of a session list, not
      even when its connection closes: the lists it leaves behind extend
      the ones it found, so a closed connection stays subscribed. */
  lemma {:induction false} GlobalRunKeepsSubscriptions(g: Connections, c: Conn, events: seq<Event>, sid: string)
    ensures var w := Watchers(GlobalRun(g, c, events).after, sid);
            |Watchers(g, sid)| <= |w| && w[..|Watchers(g, sid)|] == Watchers(g, sid)
    decreases |events|
  {
    if events != [] && events[0].Received? {
      match GlobalAction(events[0].frame)
      case Crash =>
      case Ignore => GlobalRunKeepsSubscriptions(g, c, events[1..], sid);
      case Answer(_) => GlobalRunKeepsSubscriptions(g, c, events[1..], sid);
      case SubscribeTo(s, _) =>
        var g' := AfterSubscribe(g, c, s);
        GlobalRunKeepsSubscriptions(g', c, events[1..], sid);
        var w := Watchers(GlobalRun(g', c, events[1..]).after, sid);
        assert w[..|Watchers(g, sid)|] == w[..|Watchers(g', sid)|][..|Watchers(g, sid)|];
    }
  }

  /** A frame that is valid JSON but not an object ends the global
      handler without a disconnect: the connection stays in the active
      list for good. */
  lemma NonObjectFrameLeavesConnectionActive(g: Connections, c: Conn, v: Value, rest: seq<Event>)
    requires !v.Obj?
    ensures GlobalEndpoint(g, c, [Received(Decoded(v))] + rest).after.active == g.active + [c]
  {
    assert ([Received(Decoded(v))] + rest)[0] == Received(Decoded(v));
  }

  /** Frames that neither fail the handler nor close it leave the session
      endpoint's registry as it was, and the close then disconnects. */
  lemma {:induction false} SessionRunUntilClose(g: Connections, c: Conn, sessionId: string, events: seq<Event>)
    requires events != [] && events[|events| - 1] == Closed
    requires forall i :: 0 <= i < |events| - 1 ==> events[i].Received? && SessionAction(events[i].frame) != Crash
    ensures SessionRun(g, c, sessionId, events).after == AfterDisconnect(g, c, Some(sessionId))
    decreases |events|
  {
    if |events| > 1 {
      var rest := events[1..];
      assert rest[|rest| - 1] == Closed;
      assert forall i :: 0 <= i < |rest| - 1 ==> rest[i] == events[i + 1];
      SessionRunUntilClose(g, c, sessionId, rest);
      assert events[0].Received? && SessionAction(events[0].frame) != Crash;
    }
  }

  /** A connection to the session endpoint that was not registered before
      and closes normally leaves the registry exactly as it found it. */
  lemma SessionEndpointLeavesNoTrace(g: Connections, c: Conn, sessionId: string, events: seq<Event>)
    requires NoEmptySession(g)
    requires c !in g.active && c !in Watchers(g, sessionId)
    requires events != [] && events[|events| - 1] == Closed
    requires forall i :: 0 <= i < |events| - 1 ==> events[i].Received? && SessionAction(events[i].frame) != Crash
    ensures SessionEndpoint(g, c, sessionId, events).after == g
  {
    SessionRunUntilClose(AfterConnect(g, c, Some(sessionId)), c, sessionId, events);
    DisconnectUndoesConnect(g, c, Some(sessionId));
  }

  // ------------------------------------------------------------- payloads

  /** The event name `emit_log_entry` broadcasts under. */
  const LogEntryEvent := "log.entry"

  function OrNull(s: Option<string>): (v: Value)
    ensures s.None? <==> v == Null
    ensures s.Some? ==> v == Str(s.value)
  {
    match s
    case None => Null
    case Some(x) => Str(x)
  }

  /** `emit_agent_status_changed`: the agent id and status always; the
      iteration and the cost exactly when they are given. */
  function AgentStatusData(agentId: string, status: string, iteration: Option<int>, cost: Option<Cost>): (d: map<string, Value>)
    ensures d.Keys == {"agent_id", "status"} + (if iteration.Some? then {"iteration"} else {}) + (if cost.Some? then {"cost"} else {})
    ensures d["agent_id"] == Str(agentId) && d["status"] == Str(status)
    ensures iteration.Some? ==> d["iteration"] == Int(iteration.value)
    ensures cost.Some? ==> d["cost"] == Num(cost.value)
  {
    var base := map["agent_id" := Str(agentId), "status" := Str(status)];
    var withIteration := if iteration.Some? then base["iteration" := Int(iteration.value)] else base;
    if cost.Some? then withIteration["cost" := Num(cost.value)] else withIteration
  }

  /** `emit_task_progress`: the task id and status always; the progress
      exactly when it is given. */
  function TaskProgressData(taskId: string, status: string, progress: Option<real>): (d: map<string, Value>)
    ensures d.Keys == {"task_id", "status"} + (if progress.Some? then {"progress"} else {})
    ensures d["task_id"] == Str(taskId) && d["status"] == Str(status)
    ensures progress.Some? ==> d["progress"] == Num(progress.value)
  {
    var base := map["task_id" := Str(taskId), "status" := Str(status)];
    if progress.Some? then base["progress" := Num(progress.value)] else base
  }

  /** `emit_message_sent`: sender, recipient, type and subject, the subject
      null when absent. */
  function MessageSentData(fromAgent: string, toAgent: string, messageType: string, subject: Option<string>): (d: map<string, Value>)
    ensures d.Keys == {"from", "to", "type", "subject"}
    ensures d["from"] == Str(fromAgent) && d["to"] == Str(toAgent) && d["type"] == Str(messageType)
    ensures d["subject"] == OrNull(subject)
  {
    map["from" := Str(fromAgent), "to" := Str(toAgent), "type" := Str(messageType), "subject" := OrNull(subject)]
  }

  /** `emit_pr_event`'s event name: `pr.` followed by the event type. */
  function PrEventName(eventType: string): (name: string)
    ensures |name| == |eventType| + 3
    ensures name[..3] == "pr." && name[3..] == eventType
  {
    "pr." + eventType
  }

  /** Different event types give different event names. */
  lemma PrEventNameInjective(a: string, b: string)
    requires PrEventName(a) == PrEventName(b)
    ensures a == b
  {
    assert a == PrEventName(a)[3..];
  }

  /** `emit_pr_event`'s payload: the PR number and the title, null when
      absent. */
  function PrData(prNumber: int, title: Option<string>): (d: map<string, Value>)
    ensures d.Keys == {"pr_number", "title"}
    ensures d["pr_number"] == Int(prNumber) && d["title"] == OrNull(title)
  {
    map["pr_number" := Int(prNumber), "title" := OrNull(title)]
  }

  /** `emit_cost_updated`: the total and every agent's cost. */
  function CostUpdatedData(totalCost: Cost, agentCosts: map<string, Cost>): (d: map<string, Value>)
    ensures d.Keys == {"total_cost", "agent_costs"}
    ensures d["total_cost"] == Num(totalCost)
    ensures d["agent_costs"].Obj? && d["agent_costs"].fields.Keys == agentCosts.Keys
    ensures forall a :: a in agentCosts ==> d["agent_costs"].fields[a] == Num(agentCosts[a])
  {
    map["total_cost" := Num(totalCost), "agent_costs" := Obj(map a | a in agentCosts :: Num(agentCosts[a]))]
  }

  /** `emit_log_entry`: agent, level, message, data and the time of
      emission, the agent and the data null when absent. */
  function LogEntryData(agentId: Option<string>, level: string, message: string, data: Option<Json>, now: Time): (d: map<string, Value>)
    ensures d.Keys == {"agent_id", "level", "message", "data", "timestamp"}
    ensures d["agent_id"] == OrNull(agentId) && d["level"] == Str(level) && d["message"] == Str(message)
    ensures data.None? ==> d["data"] == Null
    ensures data.Some? ==> d["data"] == Raw(data.value)
    ensures d["timestamp"] == Stamp(now)
  {
    map["agent_id" := OrNull(agentId), "level" := Str(level), "message" := Str(message),
        "data" := (if data.Some? then Raw(data.value) else Null), "timestamp" := Stamp(now)]
  }

  /** `emit_session_complete`: the final status and the summary. */
  function SessionCompleteData(status: string, summary: map<string, Value>): (d: map<string, Value>)
    ensures d.Keys == {"status", "summary"}
    ensures d["status"] == Str(status) && d["summary"] == Obj(summary)
  {
    map["status" := Str(status), "summary" := Obj(summary)]
  }
}
