/** The controller session engine (clController) as a pure transition system.

    Each public method and each WebSocket handler bound in Connect is a
    function from the controller state to the new state. WebSocket objects are
    references in the browser; they live in `sockets`, in creation order, and
    `wSocket` is the controller's reference to one of them (None for null).
    `outbox` lists every request handed to a socket's send, in order.
    `unparsable` is the browser's verdict on URLs: the hosts `h` for which
    `new WebSocket("ws://" + h + "/ws")` throws a SyntaxError. It is fixed
    for a run; no transition changes it. */
module Engine {
  import opened Options
  import opened Domain
  import opened Messages

  /** The readyState of a WebSocket. */
  datatype ReadyState = Connecting | Open | Closing | Closed

  /** A WebSocket object: its URL, its readyState and whether the controller's
      onclose handler is still attached. The onerror, onopen and onmessage
      handlers are never removed. */
  datatype Socket = Socket(url: string, readyState: ReadyState, closeAttached: bool)

  datatype Controller = Controller(
    cStatus: Status,
    cConfiguration: Configuration,
    cPrograms: seq<Program>,
    isWSConnected: bool,
    wSocket: Option<nat>,
    host: string,
    sockets: seq<Socket>,
    outbox: seq<Request>,
    unparsable: set<string>)

  /** A freshly created controller in a browser whose WebSocket constructor rejects the
      hosts in `unparsable`: default status, empty configuration, no programs,
      not connected, no socket, empty host, nothing sent. */
  function Initial(unparsable: set<string>): (st: Controller)
    ensures st.cStatus.actPgm.None? && !st.cStatus.isRunning && !st.cStatus.isRelayOn
    ensures st.cStatus.stsText == ""
    ensures st.cStatus.tPB == 0.0 && st.cStatus.tAM == 0.0 && st.cStatus.tSP == 0.0 && st.cStatus.U == 0.0
    ensures st.cStatus.actStep == 0.0 && st.cStatus.tmElapsed == 0.0
    ensures st.cConfiguration.TFT.None? && st.cConfiguration.WiFi.None? && st.cConfiguration.PID.None?
    ensures st.cPrograms == [] && st.host == ""
    ensures !st.isWSConnected && st.wSocket.None? && !CanSend(st)
    ensures st.sockets == [] && st.outbox == []
    ensures st.unparsable == unparsable
  {
    Controller(InitialStatus, EmptyConfiguration, [], false, None, "", [], [], unparsable)
  }

  const NoProgramText: string := "no program selected"
  const MalformedStatusText: string := "Message from controller with errors!!!"
  const ErrDefaultText: string := "ERROR: no details provided!"
  const OkDefaultText: string := "OK: no details provided!"
  const ErrorPrefix: string := "WSError: "

  /** The address of the oven's WebSocket endpoint on `host`. */
  function Url(host: string): string {
    "ws://" + host + "/ws"
  }

  /** The send guard of the command methods: a socket exists and is open.
      It fails with no socket and with a socket in any other readyState. */
  predicate CanSend(st: Controller)
    ensures CanSend(st) <==> st.wSocket.Some? && st.wSocket.value < |st.sockets|
                             && st.sockets[st.wSocket.value].readyState !in {Connecting, Closing, Closed}
  {
    st.wSocket.Some? && st.wSocket.value < |st.sockets| && st.sockets[st.wSocket.value].readyState == Open
  }

  /** `r` extends the outbox of `st` by `req` when `st` may send, and not at all otherwise. */
  predicate SendGuarded(st: Controller, r: Controller, req: Request) {
    if CanSend(st) then r.outbox == st.outbox + [req] else r.outbox == st.outbox
  }

  function Send(st: Controller, req: Request): Controller {
    if CanSend(st) then st.(outbox := st.outbox + [req]) else st
  }

  function WithText(st: Controller, text: string): Controller {
    st.(cStatus := st.cStatus.(stsText := text))
  }

  /** JavaScript's `details ? details : fallback`: an absent or empty string is falsy. */
  function DetailsOr(details: Option<string>, fallback: string): (t: string)
    ensures details.Some? && details.value != "" ==> t == details.value
    ensures details.None? || details.value == "" ==> t == fallback
  {
    if details.Some? && details.value != "" then details.value else fallback
  }

  /** onStartStop: without an active program only the status text changes;
      otherwise stop is sent when the oven reports it is running and start
      when it is not, and nothing local changes. */
  function StartStop(st: Controller): (r: Controller)
    ensures st.cStatus.actPgm.None? ==>
      && r.cStatus.stsText == NoProgramText
      && r.outbox == st.outbox
      && r == st.(cStatus := st.cStatus.(stsText := NoProgramText))
    ensures st.cStatus.actPgm.Some? ==> r.(outbox := st.outbox) == st
    ensures st.cStatus.actPgm.Some? ==>
      SendGuarded(st, r, Request(if st.cStatus.isRunning then stop else start, None))
  {
    if st.cStatus.actPgm.None? then
      WithText(st, NoProgramText)
    else
      var id := if st.cStatus.isRunning then stop else start;
      Send(st, Request(id, None))
  }

  /** SetConfiguration: the local configuration is replaced at once, whether
      or not the request carrying it can be sent. */
  function SetConfiguration(st: Controller, config: Configuration): (r: Controller)
    ensures r.cConfiguration == config
    ensures r.(cConfiguration := st.cConfiguration, outbox := st.outbox) == st
    ensures SendGuarded(st, r, Request(cfgWR, Some(ConfigPayload(config))))
  {
    var st1 := st.(cConfiguration := config);
    Send(st1, Request(cfgWR, Some(ConfigPayload(st1.cConfiguration))))
  }

  /** SetPrograms: the local program list is replaced at once, whether or not
      the request carrying it can be sent. */
  function SetPrograms(st: Controller, programs: seq<Program>): (r: Controller)
    ensures r.cPrograms == programs
    ensures r.(cPrograms := st.cPrograms, outbox := st.outbox) == st
    ensures SendGuarded(st, r, Request(pgmWR, Some(ProgramsPayload(programs))))
  {
    var st1 := st.(cPrograms := programs);
    Send(st1, Request(pgmWR, Some(ProgramsPayload(st1.cPrograms))))
  }

  /** SetActiveProgram: asks the oven to select the program; the local active
      program changes only when the oven reports it. */
  function SetActiveProgram(st: Controller, name: string): (r: Controller)
    ensures r.(outbox := st.outbox) == st
    ensures SendGuarded(st, r, Request(setPG, Some(TextPayload(name))))
  {
    Send(st, Request(setPG, Some(TextPayload(name))))
  }

  /** SaveConfiguration: a payload-free request; nothing local changes. */
  function SaveConfiguration(st: Controller): (r: Controller)
    ensures r.(outbox := st.outbox) == st
    ensures SendGuarded(st, r, Request(cfgSV, None))
  {
    Send(st, Request(cfgSV, None))
  }

  /** SavePrograms: a payload-free request; nothing local changes. */
  function SavePrograms(st: Controller): (r: Controller)
    ensures r.(outbox := st.outbox) == st
    ensures SendGuarded(st, r, Request(pgmSV, None))
  {
    Send(st, Request(pgmSV, None))
  }

  /** Connect: the host is always recorded; a socket to it, with every handler
      attached, is created only when the controller holds none and the
      WebSocket constructor accepts the host. When the constructor throws,
      the host was already recorded and no socket is created. */
  function Connect(st: Controller, host: string): (r: Controller)
    ensures r.host == host
    ensures st.wSocket.Some? || host in st.unparsable ==> r == st.(host := host)
    ensures st.wSocket.None? && host !in st.unparsable ==>
      && r.wSocket == Some(|st.sockets|)
      && r.sockets == st.sockets + [Socket(Url(host), Connecting, true)]
    ensures r.(host := st.host, wSocket := st.wSocket, sockets := st.sockets) == st
  {
    var st1 := st.(host := host);
    if st1.wSocket.None? && host !in st1.unparsable then
      st1.(wSocket := Some(|st1.sockets|), sockets := st1.sockets + [Socket(Url(host), Connecting, true)])
    else
      st1
  }

  /** The readyState after WebSocket.close(): closing, unless already closed. */
  function AfterClose(rs: ReadyState): (r: ReadyState)
    ensures r == Closing || r == Closed
    ensures r == Closed <==> rs == Closed
  {
    if rs == Closed then Closed else Closing
  }

  /** Disconnect: the onclose handler of the held socket is detached before it
      is closed, the reference is dropped and the connected flag is cleared.
      No other socket and nothing else changes. */
  function Disconnect(st: Controller): (r: Controller)
    ensures r.wSocket.None? && !r.isWSConnected
    ensures |r.sockets| == |st.sockets|
    ensures forall i :: 0 <= i < |st.sockets| && st.wSocket != Some(i) ==> r.sockets[i] == st.sockets[i]
    ensures st.wSocket.Some? && st.wSocket.value < |st.sockets| ==>
      var old_ := st.sockets[st.wSocket.value];
      var new_ := r.sockets[st.wSocket.value];
      && !new_.closeAttached
      && new_.url == old_.url
      && new_.readyState == AfterClose(old_.readyState)
    ensures r.(wSocket := st.wSocket, isWSConnected := st.isWSConnected, sockets := st.sockets) == st
  {
    var sockets :=
      if st.wSocket.Some? && st.wSocket.value < |st.sockets| then
        var s := st.sockets[st.wSocket.value];
        st.sockets[st.wSocket.value := s.(closeAttached := false, readyState := AfterClose(s.readyState))]
      else
        st.sockets;
    st.(sockets := sockets, isWSConnected := false, wSocket := None)
  }

  /** The browser changes the readyState of socket `sid`. */
  function SetReadyState(st: Controller, sid: nat, rs: ReadyState): (r: Controller)
    requires sid < |st.sockets|
    ensures |r.sockets| == |st.sockets| && r.sockets[sid].readyState == rs
    ensures r.sockets[sid].(readyState := st.sockets[sid].readyState) == st.sockets[sid]
    ensures forall i :: 0 <= i < |st.sockets| && i != sid ==> r.sockets[i] == st.sockets[i]
    ensures r.(sockets := st.sockets) == st
  {
    st.(sockets := st.sockets[sid := st.sockets[sid].(readyState := rs)])
  }

  /** The onerror handler: records the error description in the status text. */
  function OnError(st: Controller, description: string): (r: Controller)
    ensures r.cStatus.stsText == ErrorPrefix + description
    ensures r.cStatus.(stsText := st.cStatus.stsText) == st.cStatus
    ensures r.(cStatus := st.cStatus) == st
  {
    WithText(st, ErrorPrefix + description)
  }

  /** The onopen handler: marks the session connected and asks for the
      configuration on the held socket, without checking its readyState. */
  function OnOpen(st: Controller): (r: Controller)
    ensures r.isWSConnected
    ensures st.wSocket.Some? ==> r.outbox == st.outbox + [Request(cfgRD, None)]
    ensures st.wSocket.None? ==> r.outbox == st.outbox
    ensures r.(isWSConnected := st.isWSConnected, outbox := st.outbox) == st
  {
    var st1 := st.(isWSConnected := true);
    if st1.wSocket.Some? then st1.(outbox := st1.outbox + [Request(cfgRD, None)]) else st1
  }

  /** The onclose handler: clears the connected flag, records the close
      description, drops the socket and connects again to the remembered
      host. That creates exactly one new socket, unless the remembered host
      makes the WebSocket constructor throw: then the reconnect throws and the controller is
      left without a socket. */
  function OnClose(st: Controller, description: string): (r: Controller)
    ensures !r.isWSConnected
    ensures r.cStatus.stsText == description
    ensures r.cStatus.(stsText := st.cStatus.stsText) == st.cStatus
    ensures r.host == st.host
    ensures st.host !in st.unparsable ==>
      && r.wSocket == Some(|st.sockets|)
      && r.sockets == st.sockets + [Socket(Url(st.host), Connecting, true)]
    ensures st.host in st.unparsable ==> r.wSocket.None? && r.sockets == st.sockets
    ensures r.(isWSConnected := st.isWSConnected, cStatus := st.cStatus, wSocket := st.wSocket, sockets := st.sockets) == st
  {
    var st1 := WithText(st.(isWSConnected := false), description);
    var st2 := st1.(wSocket := None, isWSConnected := false);
    Connect(st2, st2.host)
  }

  /** The onmessage handler, given the decoded response. Snapshots are taken
      whole, never merged: a status replaces the status, a configuration the
      configuration, a program list the program list. A configuration also
      triggers a guarded request for the programs. */
  function OnMessage(st: Controller, msg: Response): (r: Controller)
    ensures msg.id.None? || msg.id.value.Unknown? ==> r == st
    ensures msg.id == Some(STS) && msg.status.Some? ==> r == st.(cStatus := msg.status.value)
    ensures msg.id == Some(STS) && msg.status.None? ==>
      r == st.(cStatus := st.cStatus.(stsText := MalformedStatusText))
    ensures msg.id == Some(ERR) ==>
      r == st.(cStatus := st.cStatus.(stsText := DetailsOr(msg.details, ErrDefaultText)))
    ensures msg.id == Some(OK) ==>
      && r.cStatus == st.cStatus.(stsText := DetailsOr(msg.details, OkDefaultText))
      && r.cConfiguration == (if msg.config.Some? then msg.config.value else st.cConfiguration)
      && r.cPrograms == (if msg.programs.Some? then msg.programs.value else st.cPrograms)
      && (msg.config.Some? ==> SendGuarded(st, r, Request(pgmRD, None)))
      && (msg.config.None? ==> r.outbox == st.outbox)
      && r.(cStatus := st.cStatus, cConfiguration := st.cConfiguration,
            cPrograms := st.cPrograms, outbox := st.outbox) == st
  {
    match msg.id
    case None => st
    case Some(Unknown(_)) => st
    case Some(STS) =>
      if msg.status.Some? then st.(cStatus := msg.status.value) else WithText(st, MalformedStatusText)
    case Some(ERR) =>
      WithText(st, DetailsOr(msg.details, ErrDefaultText))
    case Some(OK) =>
      var st1 := WithText(st, DetailsOr(msg.details, OkDefaultText));
      var st2 := if msg.config.Some? then Send(st1.(cConfiguration := msg.config.value), Request(pgmRD, None)) else st1;
      if msg.programs.Some? then st2.(cPrograms := msg.programs.value) else st2
  }
}
