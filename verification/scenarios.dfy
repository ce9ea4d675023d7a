/** Whole-session consequences of the transition system: the two-phase
    bootstrap, start/stop, repeated connects and commands issued offline. */
module Scenarios {
  import opened Options
  import opened Domain
  import opened Messages
  import Engine
  import opened Session

  function OkWithConfig(config: Configuration): Response {
    Response(Some(OK), None, Some(config), None, None)
  }

  function OkWithPrograms(programs: seq<Program>): Response {
    Response(Some(OK), None, None, None, Some(programs))
  }

  /** Opening a fresh connection asks for the configuration and nothing else. */
  lemma ConnectThenOpenRequestsConfig(unparsable: set<string>, host: string)
    requires host !in unparsable
    ensures var st := Run(Engine.Initial(unparsable), [Call(Connect(host)), Opened(0)]);
      && st.isWSConnected
      && st.host == host
      && st.sockets == [Engine.Socket(Engine.Url(host), Engine.Open, true)]
      && st.outbox == [Request(cfgRD, None)]
  {
    var st1 := Transition(Engine.Initial(unparsable), Call(Connect(host)));
    assert st1.sockets == [Engine.Socket(Engine.Url(host), Engine.Connecting, true)];
    RunTwo(Engine.Initial(unparsable), Call(Connect(host)), Opened(0));
  }

  /** The two-phase bootstrap: on an open session, an OK carrying a
      configuration followed by an OK carrying programs leaves exactly that
      configuration and that program list, and exactly one pgmRD was sent. */
  lemma BootstrapTakesBothSnapshots(st: Engine.Controller, config: Configuration, programs: seq<Program>)
    requires Valid(st) && Engine.CanSend(st)
    ensures var sid := st.wSocket.value;
      var r := Transition(Transition(st, Delivered(sid, OkWithConfig(config))), Delivered(sid, OkWithPrograms(programs)));
      && r.cConfiguration == config
      && r.cPrograms == programs
      && r.outbox == st.outbox + [Request(pgmRD, None)]
      && r.cStatus.stsText == Engine.OkDefaultText
  {
  }

  /** The full session start from a fresh controller: connect, open, then the
      configuration and the programs arrive. The outbox holds cfgRD then pgmRD. */
  lemma FreshSessionBootstrap(unparsable: set<string>, host: string, config: Configuration, programs: seq<Program>)
    requires host !in unparsable
    ensures var st := Run(Engine.Initial(unparsable),
        [Call(Connect(host)), Opened(0),
         Delivered(0, OkWithConfig(config)), Delivered(0, OkWithPrograms(programs))]);
      && st.isWSConnected
      && st.cConfiguration == config
      && st.cPrograms == programs
      && st.outbox == [Request(cfgRD, None), Request(pgmRD, None)]
  {
    var evs := [Call(Connect(host)), Opened(0),
                Delivered(0, OkWithConfig(config)), Delivered(0, OkWithPrograms(programs))];
    var st2 := Run(Engine.Initial(unparsable), evs[..2]);
    ConnectThenOpenRequestsConfig(unparsable, host);
    assert evs[..2] == [Call(Connect(host)), Opened(0)];
    RunSplit(Engine.Initial(unparsable), evs[..2], evs[2..]);
    assert evs[..2] + evs[2..] == evs;
    InitialValid(unparsable);
    RunPreservesValid(Engine.Initial(unparsable), evs[..2]);
    BootstrapTakesBothSnapshots(st2, config, programs);
    assert evs[2..] == [Delivered(0, OkWithConfig(config)), Delivered(0, OkWithPrograms(programs))];
    RunTwo(st2, evs[2], evs[3]);
  }

  /** A run of two events is the two transitions one after the other. */
  lemma RunTwo(st: Engine.Controller, e1: Event, e2: Event)
    ensures Run(st, [e1, e2]) == Transition(Transition(st, e1), e2)
  {
    assert [e1, e2][1..] == [e2];
    assert Run(st, [e1, e2]) == Run(Transition(st, e1), [e2]);
    assert [e2][1..] == [];
    assert Run(Transition(st, e1), [e2]) == Run(Transition(Transition(st, e1), e2), []);
  }

  /** Running two event lists one after the other is running their concatenation. */
  lemma {:induction false} RunSplit(st: Engine.Controller, a: seq<Event>, b: seq<Event>)
    ensures Run(st, a + b) == Run(Run(st, a), b)
    decreases |a|
  {
    if a == [] {
      assert a + b == b;
    } else {
      assert (a + b)[0] == a[0];
      assert (a + b)[1..] == a[1..] + b;
      RunSplit(Transition(st, a[0]), a[1..], b);
    }
  }

  /** startStop decides from the last status the oven pushed: after a status
      naming an active program, it sends stop exactly when that status says
      the oven is running, and start otherwise. */
  lemma StartStopFollowsPushedStatus(st: Engine.Controller, status: Status)
    requires Valid(st) && Engine.CanSend(st) && status.actPgm.Some?
    ensures var sid := st.wSocket.value;
      var st1 := Transition(st, Delivered(sid, Response(Some(STS), None, None, Some(status), None)));
      var r := Transition(st1, Call(StartStop));
      && r.outbox == st.outbox + [Request(if status.isRunning then stop else start, None)]
      && r.cStatus == status
  {
  }

  /** startStop does not toggle the running flag locally: two calls with no
      status push in between send the same command twice. */
  lemma StartStopDoesNotToggle(st: Engine.Controller)
    requires Engine.CanSend(st) && st.cStatus.actPgm.Some?
    ensures var r := Transition(Transition(st, Call(StartStop)), Call(StartStop));
      var cmd := Request(if st.cStatus.isRunning then stop else start, None);
      && r.outbox == st.outbox + [cmd, cmd]
      && r.cStatus == st.cStatus
  {
  }

  /** A second Connect records the new host but keeps the socket of the
      first, which holds one unless there was none and the first host makes
      the WebSocket constructor throw. */
  lemma SecondConnectKeepsSocket(st: Engine.Controller, h1: string, h2: string)
    ensures var st1 := Engine.Connect(st, h1);
      var r := Engine.Connect(st1, h2);
      && r.host == h2
      && (st1.wSocket.Some? ==> r.wSocket == st1.wSocket && r.sockets == st1.sockets)
      && (st.wSocket.Some? || h1 !in st.unparsable ==> r.wSocket.Some?)
  {
  }

  /** Connecting again with a host that makes the WebSocket constructor throw keeps the held
      socket, but when that socket then closes the reconnect to the new host
      throws: the controller is left disconnected with no socket. */
  lemma UnparsableRehostEndsReconnects(st: Engine.Controller, host: string, description: string)
    requires Valid(st) && st.wSocket.Some? && host in st.unparsable
    ensures var st1 := Transition(st, Call(Connect(host)));
      var r := Transition(st1, SocketClosed(st.wSocket.value, description));
      && st1.wSocket == st.wSocket
      && r.wSocket.None?
      && !r.isWSConnected
      && |r.sockets| == |st.sockets|
  {
  }

  /** A run of method calls only, none of them Connect. */
  predicate OfflineCalls(evs: seq<Event>) {
    forall i :: 0 <= i < |evs| ==> evs[i].Call? && !evs[i].cmd.Connect?
  }

  /** Without a socket nothing is queued: any number of method calls other
      than Connect sends nothing and leaves the controller without a socket.
      Their local effects (configuration, programs, status text) still apply. */
  lemma {:induction false} OfflineCommandsAreDropped(st: Engine.Controller, evs: seq<Event>)
    requires st.wSocket.None? && OfflineCalls(evs)
    ensures Run(st, evs).outbox == st.outbox
    ensures Run(st, evs).wSocket.None?
    ensures Run(st, evs).sockets == st.sockets
    decreases |evs|
  {
    if evs != [] {
      assert evs[0].Call? && !evs[0].cmd.Connect?;
      var st1 := Transition(st, evs[0]);
      assert st1.outbox == st.outbox && st1.wSocket.None? && st1.sockets == st.sockets;
      assert OfflineCalls(evs[1..]) by {
        forall i | 0 <= i < |evs[1..]| ensures evs[1..][i].Call? && !evs[1..][i].cmd.Connect? {
          assert evs[1..][i] == evs[i + 1];
        }
      }
      OfflineCommandsAreDropped(st1, evs[1..]);
    }
  }
}
