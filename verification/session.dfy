/** Runs of the controller: the calls the user interface makes, the events
    the browser delivers for each socket, and the invariant every run keeps. */
module Session {
  import opened Options
  import opened Domain
  import opened Messages
  import Engine

  /** A call of one of the controller's public methods. */
  datatype Command =
    | StartStop
    | SetConfiguration(config: Configuration)
    | SetPrograms(programs: seq<Program>)
    | SetActiveProgram(name: string)
    | SaveConfiguration
    | SavePrograms
    | Connect(host: string)
    | Disconnect

  /** One step of a run: a method call, or something the browser does with
      socket `sid` (its index in the socket pool). The browser may start
      closing an open socket on its own, when the server sends a Close frame;
      that changes the readyState but fires no event. The other browser steps
      are events with the opaque text they carry, or a decoded message. */
  datatype Event =
    | Call(cmd: Command)
    | ClosingStarted(sid: nat)
    | Opened(sid: nat)
    | Errored(sid: nat, description: string)
    | SocketClosed(sid: nat, description: string)
    | Delivered(sid: nat, msg: Response)

  /** The request a command asks to send, independently of whether the socket
      can take it: None for Connect, Disconnect and for start/stop without an
      active program. */
  function Requested(st: Engine.Controller, c: Command): (req: Option<Request>)
    ensures req.Some? ==> WellFormed(req.value)
  {
    match c
    case StartStop =>
      if st.cStatus.actPgm.None? then None
      else if st.cStatus.isRunning then Some(Request(stop, None))
      else Some(Request(start, None))
    case SetConfiguration(cfg) => Some(Request(cfgWR, Some(ConfigPayload(cfg))))
    case SetPrograms(ps) => Some(Request(pgmWR, Some(ProgramsPayload(ps))))
    case SetActiveProgram(name) => Some(Request(setPG, Some(TextPayload(name))))
    case SaveConfiguration => Some(Request(cfgSV, None))
    case SavePrograms => Some(Request(pgmSV, None))
    case Connect(_) => None
    case Disconnect => None
  }

  /** The controller method a command calls. Every command sends at most the
      request it asks for, and only through an open socket: a command issued
      while the socket is missing or not open is dropped. */
  function Apply(st: Engine.Controller, c: Command): (r: Engine.Controller)
    ensures Engine.CanSend(st) && Requested(st, c).Some? ==> r.outbox == st.outbox + [Requested(st, c).value]
    ensures !Engine.CanSend(st) || Requested(st, c).None? ==> r.outbox == st.outbox
  {
    match c
    case StartStop => Engine.StartStop(st)
    case SetConfiguration(cfg) => Engine.SetConfiguration(st, cfg)
    case SetPrograms(ps) => Engine.SetPrograms(st, ps)
    case SetActiveProgram(name) => Engine.SetActiveProgram(st, name)
    case SaveConfiguration => Engine.SaveConfiguration(st)
    case SavePrograms => Engine.SavePrograms(st)
    case Connect(host) => Engine.Connect(st, host)
    case Disconnect => Engine.Disconnect(st)
  }

  /** Whether the browser can take step `ev` in `st`. Closing starts only on
      an open socket, open fires only for a connecting one and messages only
      on an open one. Error and close fire on a socket not yet closed: the
      browser sets CLOSED just before firing error and then close, and no
      handler reads the readyState in between, so the model sets CLOSED at the
      close event. Method calls are always possible. */
  predicate Fires(st: Engine.Controller, ev: Event) {
    match ev
    case Call(_) => true
    case ClosingStarted(sid) => sid < |st.sockets| && st.sockets[sid].readyState == Engine.Open
    case Opened(sid) => sid < |st.sockets| && st.sockets[sid].readyState == Engine.Connecting
    case Errored(sid, _) => sid < |st.sockets| && st.sockets[sid].readyState != Engine.Closed
    case SocketClosed(sid, _) => sid < |st.sockets| && st.sockets[sid].readyState != Engine.Closed
    case Delivered(sid, _) => sid < |st.sockets| && st.sockets[sid].readyState == Engine.Open
  }

  /** One step: the browser's own change to the socket, then the handler the
      controller bound to it. A close event runs the controller's handler only
      while it is still attached. An event that cannot fire changes nothing. */
  function Transition(st: Engine.Controller, ev: Event): (r: Engine.Controller)
    ensures !Fires(st, ev) ==> r == st
    ensures st.outbox <= r.outbox && |r.outbox| <= |st.outbox| + 1
    ensures |st.sockets| <= |r.sockets| <= |st.sockets| + 1
  {
    if !Fires(st, ev) then st
    else
      match ev
      case Call(c) => Apply(st, c)
      case ClosingStarted(sid) => Engine.SetReadyState(st, sid, Engine.Closing)
      case Opened(sid) => Engine.OnOpen(Engine.SetReadyState(st, sid, Engine.Open))
      case Errored(_, text) => Engine.OnError(st, text)
      case SocketClosed(sid, text) =>
        var st1 := Engine.SetReadyState(st, sid, Engine.Closed);
        if st.sockets[sid].closeAttached then Engine.OnClose(st1, text) else st1
      case Delivered(_, msg) => Engine.OnMessage(st, msg)
  }

  /** The state after the events of `evs`, in order. */
  function Run(st: Engine.Controller, evs: seq<Event>): Engine.Controller
    decreases |evs|
  {
    if evs == [] then st else Run(Transition(st, evs[0]), evs[1..])
  }

  /** The socket the controller holds is alive: not yet closed, with its
      close handler attached. */
  predicate Live(s: Engine.Socket) {
    s.closeAttached && s.readyState != Engine.Closed
  }

  /** The held socket has opened and not yet closed: open, or closing after
      the server sent a Close frame. */
  predicate HeldOpened(st: Engine.Controller) {
    && st.wSocket.Some? && st.wSocket.value < |st.sockets|
    && (st.sockets[st.wSocket.value].readyState == Engine.Open
        || st.sockets[st.wSocket.value].readyState == Engine.Closing)
  }

  /** A socket the controller no longer holds can never reconnect: it is
      closed, or closing with its close handler detached. */
  predicate Retired(s: Engine.Socket) {
    s.readyState == Engine.Closed || (s.readyState == Engine.Closing && !s.closeAttached)
  }

  /** The session invariant: the held socket exists and is alive, every other
      socket is retired, and the connected flag is set exactly when the held
      socket has opened and not yet closed. The flag stays set while a socket
      the server is closing waits for its close event, so it is set whenever
      a send can happen but not only then. */
  predicate Valid(st: Engine.Controller) {
    && (st.wSocket.Some? ==> st.wSocket.value < |st.sockets| && Live(st.sockets[st.wSocket.value]))
    && (forall i :: 0 <= i < |st.sockets| && st.wSocket != Some(i) ==> Retired(st.sockets[i]))
    && (st.isWSConnected <==> HeldOpened(st))
  }

  /** Every request the controller ever sent carries the payload its identifier calls for. */
  predicate OutboxWellFormed(st: Engine.Controller) {
    forall i :: 0 <= i < |st.outbox| ==> WellFormed(st.outbox[i])
  }

  lemma InitialValid(unparsable: set<string>)
    ensures Valid(Engine.Initial(unparsable)) && OutboxWellFormed(Engine.Initial(unparsable))
  {
  }

  /** Only the held socket can be connecting or open, so only it can open,
      deliver a message or be closed by the server. */
  lemma ActiveSocketIsHeld(st: Engine.Controller, sid: nat)
    requires Valid(st) && sid < |st.sockets|
    requires st.sockets[sid].readyState == Engine.Connecting || st.sockets[sid].readyState == Engine.Open
    ensures st.wSocket == Some(sid)
  {
  }

  /** Every step keeps the session invariant. */
  lemma TransitionPreservesValid(st: Engine.Controller, ev: Event)
    requires Valid(st)
    ensures Valid(Transition(st, ev))
  {
    if Fires(st, ev) {
      match ev
      case Call(c) => CallPreservesValid(st, c);
      case ClosingStarted(sid) => ActiveSocketIsHeld(st, sid);
      case Opened(sid) => ActiveSocketIsHeld(st, sid);
      case Errored(_, _) =>
      case SocketClosed(sid, text) => ClosePreservesValid(st, sid, text);
      case Delivered(sid, _) => ActiveSocketIsHeld(st, sid);
    }
  }

  /** Every method call keeps the session invariant. */
  lemma CallPreservesValid(st: Engine.Controller, c: Command)
    requires Valid(st)
    ensures Valid(Apply(st, c))
  {
    match c
    case Connect(host) =>
    case Disconnect =>
    case _ =>
  }

  /** A close event keeps the session invariant: on the held socket the
      handler retires it and holds a new live one when the remembered host is
      accepted by the WebSocket constructor, and none otherwise; on any other
      socket the handler is already detached, or the socket is already closed. */
  lemma ClosePreservesValid(st: Engine.Controller, sid: nat, description: string)
    requires Valid(st) && sid < |st.sockets| && st.sockets[sid].readyState != Engine.Closed
    ensures Valid(Transition(st, SocketClosed(sid, description)))
  {
    if st.wSocket != Some(sid) {
      assert Retired(st.sockets[sid]);
    }
  }

  /** Every step sends only well-formed requests. */
  lemma TransitionPreservesOutboxWellFormed(st: Engine.Controller, ev: Event)
    requires OutboxWellFormed(st)
    ensures OutboxWellFormed(Transition(st, ev))
  {
  }

  /** Every run keeps the session invariant and sends only well-formed requests. */
  lemma {:induction false} RunPreservesValid(st: Engine.Controller, evs: seq<Event>)
    requires Valid(st) && OutboxWellFormed(st)
    ensures Valid(Run(st, evs)) && OutboxWellFormed(Run(st, evs))
    decreases |evs|
  {
    if evs != [] {
      TransitionPreservesValid(st, evs[0]);
      TransitionPreservesOutboxWellFormed(st, evs[0]);
      RunPreservesValid(Transition(st, evs[0]), evs[1..]);
    }
  }

  /** The outbox is append-only along a run, one request per event at most,
      and at most one socket is created per event. */
  lemma {:induction false} RunAppendsOnly(st: Engine.Controller, evs: seq<Event>)
    ensures st.outbox <= Run(st, evs).outbox
    ensures |Run(st, evs).outbox| <= |st.outbox| + |evs|
    ensures |st.sockets| <= |Run(st, evs).sockets| <= |st.sockets| + |evs|
    decreases |evs|
  {
    if evs != [] {
      RunAppendsOnly(Transition(st, evs[0]), evs[1..]);
    }
  }

  /** In every state a run from a fresh controller reaches, the held socket is
      alive, no other socket can reconnect, and the connected flag is set
      exactly when the held socket has opened and not yet closed; in
      particular it is set whenever a send can happen. */
  lemma Reachable(unparsable: set<string>, evs: seq<Event>)
    ensures var st := Run(Engine.Initial(unparsable), evs);
      && Valid(st)
      && OutboxWellFormed(st)
      && (Engine.CanSend(st) ==> st.isWSConnected)
  {
    InitialValid(unparsable);
    RunPreservesValid(Engine.Initial(unparsable), evs);
  }

  /** Every request is sent through an open socket: whenever a step in a valid
      state extends the outbox by one request, the socket held afterwards is
      open. This covers the unguarded send in the open handler too. */
  lemma SendsOnlyWhenOpen(st: Engine.Controller, ev: Event)
    requires Valid(st)
    ensures var r := Transition(st, ev);
      r.outbox == st.outbox || (r.outbox == st.outbox + [r.outbox[|st.outbox|]] && Engine.CanSend(r))
  {
  }

  /** A close event on a socket the controller no longer holds never creates a
      socket and never touches the controller's own fields. */
  lemma StaleCloseDoesNotReconnect(st: Engine.Controller, sid: nat, description: string)
    requires Valid(st) && sid < |st.sockets| && st.wSocket != Some(sid)
    ensures var r := Transition(st, SocketClosed(sid, description));
      && |r.sockets| == |st.sockets|
      && r.(sockets := st.sockets) == st
  {
  }

  /** A close event on the held socket, whether it was connecting, open or
      already closing, sets the status text to the close description, clears
      the connected flag and closes that socket. It opens exactly one new
      socket to the remembered host when that host is accepted by the WebSocket constructor, and
      none otherwise. Nothing is sent. */
  lemma CloseReconnectsOnce(st: Engine.Controller, description: string)
    requires Valid(st) && st.wSocket.Some?
    ensures var r := Transition(st, SocketClosed(st.wSocket.value, description));
      && !r.isWSConnected
      && r.cStatus.stsText == description
      && r.sockets[st.wSocket.value].readyState == Engine.Closed
      && r.outbox == st.outbox
      && (st.host !in st.unparsable ==>
            && |r.sockets| == |st.sockets| + 1
            && r.wSocket == Some(|st.sockets|)
            && r.sockets[|st.sockets|] == Engine.Socket(Engine.Url(st.host), Engine.Connecting, true))
      && (st.host in st.unparsable ==> |r.sockets| == |st.sockets| && r.wSocket.None?)
  {
  }

  /** While the server is closing the held socket, the connected flag is
      still set but nothing can be sent: a command issued then is dropped,
      though its local effect applies. */
  lemma ServerCloseWindow(st: Engine.Controller, config: Configuration)
    requires Valid(st) && Engine.CanSend(st)
    ensures var st1 := Transition(st, ClosingStarted(st.wSocket.value));
      var r := Transition(st1, Call(SetConfiguration(config)));
      && Valid(st1)
      && st1.isWSConnected && !Engine.CanSend(st1)
      && r.isWSConnected
      && r.outbox == st.outbox
      && r.cConfiguration == config
  {
    TransitionPreservesValid(st, ClosingStarted(st.wSocket.value));
  }

  /** After Disconnect, the close event of the socket that was held is
      delivered with its handler detached: no reconnection follows and the
      controller stays disconnected. */
  lemma DisconnectThenCloseStaysDisconnected(st: Engine.Controller, description: string)
    requires Valid(st) && st.wSocket.Some?
    ensures var st1 := Engine.Disconnect(st);
      var r := Transition(st1, SocketClosed(st.wSocket.value, description));
      && r.wSocket.None?
      && !r.isWSConnected
      && |r.sockets| == |st.sockets|
      && r.(sockets := st1.sockets) == st1
  {
  }
}
