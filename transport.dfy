/** The transports of transport.py: the TCP transport (and, through its
    `Relay` constructor, the relay transport with its join handshake), the
    virtual-channel (DVC) transport, and the reconnect supervisor.  Sockets,
    threads and the DVC library are not modelled: received text is an input,
    the send queue is the record of what is sent, and the results of library
    calls are inputs. */
module Transport {
  import opened Values
  import opened Callbacks
  import opened Framing

  const PROTOCOL_VERSION: int := 2
  const DVC_TYPES: seq<string> := ["slave", "master"]
  const CONNECT_DELAY: nat := 5

  // ---------------------------------------------------------------------------
  // ConnectorThread

  /** The result of one `connector.run()`: it returned, it raised the
      supervisor's `run_except`, or it raised anything else. */
  datatype Attempt = Returned | Failed | Crashed

  /** The number of `connector.run()` calls the supervisor makes when the
      calls have the given results. */
  function AttemptsMade(outcomes: seq<Attempt>): nat {
    if outcomes == [] then 0
    else if outcomes[0] == Crashed then 1
    else 1 + AttemptsMade(outcomes[1..])
  }

  /** Every call is made, unless one raises an unexpected exception, which
      ends the supervisor after that call. */
  lemma {:induction false} AttemptsMadeCount(outcomes: seq<Attempt>)
    ensures Crashed !in outcomes ==> AttemptsMade(outcomes) == |outcomes|
    ensures Crashed in outcomes ==>
              var n := AttemptsMade(outcomes);
              1 <= n <= |outcomes| && outcomes[n - 1] == Crashed && Crashed !in outcomes[..n - 1]
  {
    if outcomes != [] && outcomes[0] != Crashed {
      AttemptsMadeCount(outcomes[1..]);
      assert Crashed in outcomes <==> Crashed in outcomes[1..];
      if Crashed in outcomes {
        var m := AttemptsMade(outcomes[1..]);
        assert outcomes[..m] == [outcomes[0]] + outcomes[1..][..m - 1];
      }
    }
  }

  /** A call that does not crash is followed by the remaining calls. */
  lemma AttemptsMadeStep(outcomes: seq<Attempt>)
    requires outcomes != []
    ensures AttemptsMade(outcomes) == if outcomes[0] == Crashed then 1 else 1 + AttemptsMade(outcomes[1..])
  {
  }

  class ConnectorThread {
    var running: bool
    var attempts: nat   // calls of connector.run() made so far
    var slept: nat      // seconds spent in the fixed back-off
    const connectDelay: nat := CONNECT_DELAY

    constructor ()
      ensures running && attempts == 0 && slept == 0 && connectDelay == CONNECT_DELAY
    {
      running := true;
      attempts := 0;
      slept := 0;
    }

    /** `run`.  `outcomes` are the results of the `connector.run()` calls made
        while `running` stays true (it is cleared by `close()` from another
        thread).  Every call that does not crash is followed by the same
        back-off, whether it failed or returned. */
    method Run(outcomes: seq<Attempt>)
      modifies this`attempts, this`slept
      ensures !running ==> attempts == old(attempts) && slept == old(slept)
      ensures running ==> attempts == old(attempts) + AttemptsMade(outcomes)
      ensures running ==>
                slept == old(slept) + connectDelay * (AttemptsMade(outcomes) - if Crashed in outcomes then 1 else 0)
    {
      var i := 0;
      while running && i < |outcomes|
        invariant 0 <= i <= |outcomes| && (!running ==> i == 0)
        invariant Crashed !in outcomes[..i]
        invariant AttemptsMade(outcomes) == i + AttemptsMade(outcomes[i..])
        invariant attempts == old(attempts) + i && slept == old(slept) + connectDelay * i
      {
        attempts := attempts + 1;
        AttemptsMadeStep(outcomes[i..]);
        if outcomes[i] == Crashed {
          assert Crashed in outcomes;
          return;
        }
        assert outcomes[i..][1..] == outcomes[i + 1..];
        slept := slept + connectDelay;
        assert outcomes[..i + 1] == outcomes[..i] + [outcomes[i]];
        i := i + 1;
      }
      assert running ==> outcomes[..i] == outcomes && outcomes[i..] == [] && AttemptsMade(outcomes) == i;
    }
  }

  // ---------------------------------------------------------------------------
  // Relay handshake

  /** The records `RelayTransport.on_connected` sends: the protocol version,
      then a join request when the channel is known, else a key request. */
  function HandshakeMessages(channel: Option<string>, connectionType: Value,
                             protocolVersion: Value): seq<Fields>
  {
    [Message("protocol_version", map["version" := protocolVersion])]
    + if channel.Some?
      then [Message("join", map["channel" := VStr(channel.value), "connection_type" := connectionType])]
      else [Message("generate_key", map[])]
  }

  lemma HandshakeShape(channel: Option<string>, connectionType: Value, protocolVersion: Value)
    ensures var h := HandshakeMessages(channel, connectionType, protocolVersion);
            && |h| == 2
            && h[0]["type"] == VStr("protocol_version") && h[0]["version"] == protocolVersion
            && (channel.Some? <==> h[1]["type"] == VStr("join"))
            && (channel.None? <==> h[1]["type"] == VStr("generate_key"))
            && (channel.Some? ==> h[1]["channel"] == VStr(channel.value)
                                  && h[1]["connection_type"] == connectionType)
  {
  }

  function Serialized(ser: Fields -> string, ms: seq<Fields>): (r: seq<string>)
    ensures |r| == |ms| && forall k :: 0 <= k < |ms| ==> r[k] == ser(ms[k])
  {
    if ms == [] then [] else [ser(ms[0])] + Serialized(ser, ms[1..])
  }

  // ---------------------------------------------------------------------------
  // parse and the line loop, shared by both transports

  /** `parse` (both transports have the same one).  A record that fails to
      deserialize or whose `type` is not a string raises; one without `type`
      is dropped; any other is dispatched as `"msg_" + type` with the
      remaining fields. */
  method Parse(cm: CallbackManager, deserialize: string -> Option<Fields>, line: string)
    returns (raised: bool)
    modifies cm`log
    ensures var p := Classify(deserialize(line));
            raised == p.Raises?
            && cm.log == old(cm.log) + Emitted(cm.registry, p)
  {
    var obj := deserialize(line);
    if obj.None? {
      return true;
    }
    if "type" !in obj.value {
      return false;
    }
    if !IsText(obj.value["type"]) {
      return true;
    }
    var callback := "msg_" + Text(obj.value["type"]);
    var fields := obj.value - {"type"};
    cm.CallCallbacks(callback, fields);
    raised := false;
  }

  /** Split unfolded once. */
  lemma SplitStep(data: string)
    requires NL in data
    ensures var i := FirstIndex(data, NL);
            Split(data) == ([data[..i]] + Split(data[i + 1..]).0, Split(data[i + 1..]).1)
  {
  }

  /** The `while '\n' in data` loop of `handle_server_data`/`handle_data`:
      each complete line is parsed in order until one raises; `rest` is the
      unterminated remainder. */
  method ParseLines(cm: CallbackManager, deserialize: string -> Option<Fields>, data: string)
    returns (raised: bool, rest: string)
    modifies cm`log
    ensures raised == Deliver(deserialize, old(cm.registry), Split(data).0).1
    ensures cm.log == old(cm.log) + Deliver(deserialize, old(cm.registry), Split(data).0).0
    ensures rest == Split(data).1
  {
    ghost var registry := cm.registry;
    ghost var done: seq<string> := [];
    rest := data;
    assert done + Split(rest).0 == Split(rest).0;
    while NL in rest
      invariant Split(data).0 == done + Split(rest).0 && Split(data).1 == Split(rest).1
      invariant !Deliver(deserialize, registry, done).1
      invariant cm.log == old(cm.log) + Deliver(deserialize, registry, done).0
      invariant cm.registry == registry
      decreases |rest|
    {
      var i := FirstIndex(rest, NL);
      var line := rest[..i];
      LineStep(data, done, rest);
      DeliverSnoc(deserialize, registry, done, line);
      rest := rest[i + 1..];
      var r := Parse(cm, deserialize, line);
      if r {
        DeliverStopsAtRaise(deserialize, registry, done, line, Split(rest).0);
        return true, Split(data).1;
      }
      done := done + [line];
    }
    assert done + [] == done;
    raised := false;
  }

  lemma SeqAssoc<T>(a: seq<T>, b: seq<T>, c: seq<T>)
    ensures a + (b + c) == (a + b) + c
  {
  }

  /** One turn of the line loop: the first line of `rest` moves to `done`. */
  lemma LineStep(data: string, done: seq<string>, rest: string)
    requires NL in rest
    requires Split(data).0 == done + Split(rest).0
    ensures var i := FirstIndex(rest, NL);
            Split(data).0 == (done + [rest[..i]]) + Split(rest[i + 1..]).0
            && Split(rest).1 == Split(rest[i + 1..]).1
  {
    var i := FirstIndex(rest, NL);
    var line, tail := rest[..i], rest[i + 1..];
    var lines := Split(tail).0;
    SplitStep(rest);
    SeqAssoc(done, [line], lines);
  }

  // ---------------------------------------------------------------------------
  // TCPTransport and RelayTransport

  class TcpTransport {
    const serialize: Fields -> string
    const deserialize: string -> Option<Fields>
    const cm: CallbackManager
    // RelayTransport's configuration (unused by a plain TCP transport)
    const channel: Option<string>
    const connectionType: Value
    const protocolVersion: Value

    var connected: bool
    var successfulConnects: nat
    var closed: bool
    var buffer: string          // partially received line
    var queue: seq<string>      // serialized records waiting to be sent
    var hasSocket: bool         // server_sock is not None
    var reconnector: ConnectorThread

    /** The carry-over buffer never holds a complete line. */
    ghost predicate Valid()
      reads this
    {
      NL !in buffer
    }

    constructor (serialize: Fields -> string, deserialize: string -> Option<Fields>)
      ensures Valid() && fresh(cm) && fresh(reconnector)
      ensures this.serialize == serialize && this.deserialize == deserialize
      ensures cm.registry == map[] && cm.log == []
      ensures !connected && successfulConnects == 0 && !closed && buffer == "" && queue == []
      ensures !hasSocket && reconnector.running
    {
      this.serialize := serialize;
      this.deserialize := deserialize;
      cm := new CallbackManager();
      channel := None;
      connectionType := VNone;
      protocolVersion := VInt(PROTOCOL_VERSION);
      connected := false;
      successfulConnects := 0;
      closed := false;
      buffer := "";
      queue := [];
      hasSocket := false;
      reconnector := new ConnectorThread();
    }

    /** RelayTransport's constructor: it registers `on_connected` for
        `transport_connected`. */
    constructor Relay(serialize: Fields -> string, deserialize: string -> Option<Fields>,
                      channel: Option<string>, connectionType: Value,
                      protocolVersion: Value := VInt(PROTOCOL_VERSION))
      ensures Valid() && fresh(cm) && fresh(reconnector)
      ensures this.serialize == serialize && this.deserialize == deserialize
      ensures this.channel == channel && this.connectionType == connectionType
      ensures this.protocolVersion == protocolVersion
      ensures cm.registry == map["transport_connected" := [RelayOnConnected]] && cm.log == []
      ensures !connected && successfulConnects == 0 && !closed && buffer == "" && queue == []
      ensures !hasSocket && reconnector.running
    {
      this.serialize := serialize;
      this.deserialize := deserialize;
      var m := new CallbackManager();
      m.RegisterCallback("transport_connected", RelayOnConnected);
      assert [] + [RelayOnConnected] == [RelayOnConnected];
      cm := m;
      this.channel := channel;
      this.connectionType := connectionType;
      this.protocolVersion := protocolVersion;
      connected := false;
      successfulConnects := 0;
      closed := false;
      buffer := "";
      queue := [];
      hasSocket := false;
      reconnector := new ConnectorThread();
    }

    /** Transport.transport_connected */
    method TransportConnected()
      modifies this`successfulConnects, this`connected, cm`log
      ensures successfulConnects == old(successfulConnects) + 1 && connected
      ensures cm.log == old(cm.log) + [Dispatch("transport_connected", map[], cm.Handlers("transport_connected"))]
    {
      successfulConnects := successfulConnects + 1;
      connected := true;
      cm.CallCallbacks("transport_connected", map[]);
    }

    /** The start of `run`: a fresh socket, then the connect attempt.  A
        failed connect is announced and re-raised. */
    method Connect(succeeds: bool) returns (raised: bool)
      modifies this`closed, this`hasSocket, this`successfulConnects, this`connected, cm`log
      ensures !closed && hasSocket && raised == !succeeds
      ensures !succeeds ==> connected == old(connected) && successfulConnects == old(successfulConnects)
                            && cm.log == old(cm.log) + [Dispatch("transport_connection_failed", map[],
                                                                 cm.Handlers("transport_connection_failed"))]
      ensures succeeds ==> connected && successfulConnects == old(successfulConnects) + 1
                           && cm.log == old(cm.log) + [Dispatch("transport_connected", map[],
                                                                cm.Handlers("transport_connected"))]
    {
      closed := false;
      hasSocket := true;
      if !succeeds {
        cm.CallCallbacks("transport_connection_failed", map[]);
        return true;
      }
      TransportConnected();
      raised := false;
    }

    /** The end of `run`: after a socket error the partial line is dropped;
        then the transport is marked disconnected and the event announced.
        The closing `_disconnect` finds `connected` false and does nothing. */
    method RunEnded(socketError: bool)
      requires Valid()
      modifies this`buffer, this`connected, this`queue, this`hasSocket, cm`log
      ensures Valid() && !connected
      ensures buffer == if socketError then "" else old(buffer)
      ensures queue == old(queue) && hasSocket == old(hasSocket)
      ensures cm.log == old(cm.log) + [Dispatch("transport_disconnected", map[], cm.Handlers("transport_disconnected"))]
    {
      if socketError {
        buffer := "";
      }
      connected := false;
      cm.CallCallbacks("transport_disconnected", map[]);
      var _ := Disconnect();
    }

    /** handle_server_data, on the text `received` from one `recv`. */
    method HandleServerData(received: string) returns (raised: bool)
      requires Valid() && hasSocket
      modifies this`buffer, this`queue, this`hasSocket, cm`log
      ensures Valid()
      ensures var data := old(buffer) + received;
              data == "" ==> !raised && buffer == "" && cm.log == old(cm.log)
                             && (old(connected) ==> queue == [] && !hasSocket)
                             && (!old(connected) ==> queue == old(queue) && hasSocket)
      ensures var data := old(buffer) + received;
              var d := Deliver(deserialize, old(cm.registry), Split(data).0);
              data != "" ==> raised == d.1 && cm.log == old(cm.log) + d.0
                             && queue == old(queue) && hasSocket
                             && buffer == (if raised then "" else Split(data).1)
      ensures var data := old(buffer) + received;
              data != "" && !raised ==> Join(Split(data).0, buffer) == data
      ensures var data := old(buffer) + received;
              data != "" && NL !in data ==> buffer == data && cm.log == old(cm.log)
    {
      var data := buffer + received;
      buffer := "";
      if data == "" {
        var _ := Disconnect();
        return false;
      }
      if NL !in data {
        buffer := buffer + data;
        return false;
      }
      var rest;
      raised, rest := ParseLines(cm, deserialize, data);
      if raised {
        return;
      }
      buffer := buffer + rest;
      SplitJoin(data);
      SplitClean(data);
    }

    /** send: the record is queued only while connected. */
    method Send(msgType: string, kwargs: Fields)
      requires "type" !in kwargs
      modifies this`queue
      ensures queue == if connected then old(queue) + [serialize(Message(msgType, kwargs))] else old(queue)
    {
      var obj := serialize(Message(msgType, kwargs));
      if connected {
        queue := queue + [obj];
      }
    }

    /** _disconnect: when connected, the queue is emptied and the socket
        closed; `connected` itself is left alone.  Closing a socket that is
        already gone raises. */
    method Disconnect() returns (raised: bool)
      modifies this`queue, this`hasSocket
      ensures !old(connected) ==> !raised && queue == old(queue) && hasSocket == old(hasSocket)
      ensures old(connected) ==> queue == [] && !hasSocket && raised == !old(hasSocket)
    {
      if !connected {
        return false;
      }
      queue := [];
      if !hasSocket {
        return true;
      }
      hasSocket := false;
      raised := false;
    }

    /** close: announce, stop the supervisor, disconnect, and arm a fresh
        supervisor. */
    method Close() returns (raised: bool)
      modifies this`closed, this`reconnector, this`queue, this`hasSocket, cm`log, reconnector`running
      ensures cm.log == old(cm.log) + [Dispatch("transport_closing", map[], cm.Handlers("transport_closing"))]
      ensures !old(reconnector).running
      ensures raised == (old(connected) && !old(hasSocket))
      ensures old(connected) ==> queue == [] && !hasSocket
      ensures !old(connected) ==> queue == old(queue) && hasSocket == old(hasSocket)
      ensures raised ==> closed == old(closed) && reconnector == old(reconnector)
      ensures !raised ==> closed && fresh(reconnector) && reconnector.running && reconnector.attempts == 0
    {
      cm.CallCallbacks("transport_closing", map[]);
      reconnector.running := false;
      raised := Disconnect();
      if raised {
        return;
      }
      closed := true;
      reconnector := new ConnectorThread();
    }

    /** RelayTransport.on_connected */
    method OnConnected()
      modifies this`queue
      ensures queue == old(queue) +
              if connected then Serialized(serialize, HandshakeMessages(channel, connectionType, protocolVersion)) else []
    {
      Send("protocol_version", map["version" := protocolVersion]);
      if channel.Some? {
        Send("join", map["channel" := VStr(channel.value), "connection_type" := connectionType]);
      } else {
        Send("generate_key", map[]);
      }
    }
  }

  /** The relay handshake as it happens on connect: `transport_connected`
      marks the transport connected before `on_connected` runs, so both
      handshake records are queued, protocol version first. */
  method ConnectedHandshake(t: TcpTransport)
    modifies t`successfulConnects, t`connected, t.cm`log, t`queue
    ensures t.connected && t.successfulConnects == old(t.successfulConnects) + 1
    ensures t.queue == old(t.queue) + Serialized(t.serialize, HandshakeMessages(t.channel, t.connectionType, t.protocolVersion))
  {
    t.TransportConnected();
    t.OnConnected();
  }

  // ---------------------------------------------------------------------------
  // DVCTransport

  /** Why the DVC transport's constructor refuses its arguments, if it does.
      The connection type is looked up with `in`, which Python 2 answers alike
      for `str` and `unicode` text; the channel must be a `str` proper. */
  function DvcConfigError(connectionType: Value, channel: Value, libFound: bool): (e: Option<string>)
    ensures e.None? <==> IsText(connectionType) && Text(connectionType) in DVC_TYPES && channel.VStr? && libFound
    ensures e == Some("ValueError: Unsupported connection type for DVC connection")
            <==> !(IsText(connectionType) && Text(connectionType) in DVC_TYPES)
    ensures e == Some("ValueError: Invalid key provided")
            <==> IsText(connectionType) && Text(connectionType) in DVC_TYPES && !channel.VStr?
  {
    if !(IsText(connectionType) && Text(connectionType) in DVC_TYPES) then
      Some("ValueError: Unsupported connection type for DVC connection")
    else if !channel.VStr? then Some("ValueError: Invalid key provided")
    else if !libFound then Some("NotImplementedError: UnicornDVC library not found")
    else None
  }

  /** `s` without any `c` (`str.replace(c, "")`): the other characters keep
      their order, and a string without `c` is left as it is. */
  function Without(s: string, c: char): (r: string)
    ensures c !in r
    ensures forall x :: x != c ==> (x in r <==> x in s)
    ensures |r| == |s| - Count(s, c)
    ensures c !in s ==> r == s
  {
    if s == [] then []
    else (if s[0] == c then [] else [s[0]]) + Without(s[1..], c)
  }

  /** Stripping distributes over concatenation, so stripping each received
      chunk is stripping the whole stream. */
  lemma {:induction false} WithoutAppend(s: string, t: string, c: char)
    ensures Without(s + t, c) == Without(s, c) + Without(t, c)
  {
    if s == [] {
      assert s + t == t;
    } else {
      var head: string := if s[0] == c then [] else [s[0]];
      assert (s + t)[0] == s[0];
      assert (s + t)[1..] == s[1..] + t;
      assert Without(s + t, c) == head + Without(s[1..] + t, c);
      WithoutAppend(s[1..], t, c);
      SeqAssoc(head, Without(s[1..], c), Without(t, c));
    }
  }


  class DvcTransport {
    const serialize: Fields -> string
    const deserialize: string -> Option<Fields>
    const cm: CallbackManager
    const channel: string
    const connectionType: string
    const protocolVersion: Value

    var connected: bool
    var successfulConnects: nat
    var closed: bool
    var initialized: bool       // the DVC library is initialized
    var buffer: string
    var queue: seq<string>
    var errorEvent: bool        // error_event is set
    var reconnector: ConnectorThread

    /** The arguments are the ones DvcConfigError accepts. */
    constructor (serialize: Fields -> string, deserialize: string -> Option<Fields>,
                 connectionType: string, channel: string,
                 protocolVersion: Value := VInt(PROTOCOL_VERSION))
      requires DvcConfigError(VStr(connectionType), VStr(channel), true).None?
      ensures fresh(cm) && fresh(reconnector) && reconnector.running
      ensures this.serialize == serialize && this.deserialize == deserialize
      ensures this.connectionType == connectionType && this.channel == channel
      ensures this.protocolVersion == protocolVersion
      ensures cm.registry == map["msg_protocol_version" := [DvcHandleP2p]] && cm.log == []
      ensures !connected && successfulConnects == 0 && !closed && !initialized
      ensures buffer == "" && queue == [] && !errorEvent
    {
      this.serialize := serialize;
      this.deserialize := deserialize;
      var m := new CallbackManager();
      m.RegisterCallback("msg_protocol_version", DvcHandleP2p);
      assert [] + [DvcHandleP2p] == [DvcHandleP2p];
      cm := m;
      this.channel := channel;
      this.connectionType := connectionType;
      this.protocolVersion := protocolVersion;
      connected := false;
      successfulConnects := 0;
      closed := false;
      initialized := false;
      buffer := "";
      queue := [];
      errorEvent := false;
      reconnector := new ConnectorThread();
    }

    /** initialize_lib; `libResult` is what the library's Initialize returns
        (non-zero raises). */
    method InitializeLib(libResult: int) returns (raised: bool)
      modifies this`initialized
      ensures old(initialized) ==> initialized && !raised
      ensures !old(initialized) ==> raised == (libResult != 0) && initialized == !raised
    {
      if initialized {
        return false;
      }
      if libResult != 0 {
        return true;
      }
      initialized := true;
      raised := false;
    }

    /** terminate_lib; `libResult` is what the library's Terminate returns. */
    method TerminateLib(libResult: int) returns (raised: bool)
      modifies this`initialized
      ensures !old(initialized) ==> !initialized && !raised
      ensures old(initialized) ==> raised == (libResult != 0) && initialized == raised
    {
      if !initialized {
        return false;
      }
      if libResult != 0 {
        return true;
      }
      initialized := false;
      raised := false;
    }

    /** Transport.transport_connected */
    method TransportConnected()
      modifies this`successfulConnects, this`connected, cm`log
      ensures successfulConnects == old(successfulConnects) + 1 && connected
      ensures cm.log == old(cm.log) + [Dispatch("transport_connected", map[], cm.Handlers("transport_connected"))]
    {
      successfulConnects := successfulConnects + 1;
      connected := true;
      cm.CallCallbacks("transport_connected", map[]);
    }

    /** The start of `run`: the error event is cleared and the library
        initialized; then a slave opens its channel, and a master needs the
        Unicorn client.  Either failure is announced.  A failed
        initialization or open raises `WinError`, a `WindowsError` the
        supervisor catches (`Failed`).  A missing client meets a bare
        `raise`: when the supervisor thread is still `handling` an earlier
        caught `WindowsError`, Python 2 re-raises that one (`Failed`);
        otherwise there is no exception to re-raise, the TypeError escapes
        the supervisor's `except WindowsError` and ends it (`Crashed`).
        `Returned` means the start went through and `run` goes on to wait. */
    method RunStart(initResult: int, openResult: int, clientAvailable: bool, handling: bool)
      returns (outcome: Attempt)
      modifies this`closed, this`errorEvent, this`initialized, cm`log
      ensures !closed && !errorEvent
      ensures initialized == (old(initialized) || initResult == 0)
      ensures var initFails := !old(initialized) && initResult != 0;
              var linkFails := if connectionType == "slave" then openResult != 0 else !clientAvailable;
              (outcome == Returned <==> !initFails && !linkFails)
              && (outcome == Crashed <==> !initFails && connectionType != "slave" && !clientAvailable && !handling)
              && cm.log == old(cm.log) + if !initFails && linkFails
                                         then [Dispatch("transport_connection_failed", map[],
                                                        cm.Handlers("transport_connection_failed"))]
                                         else []
    {
      closed := false;
      errorEvent := false;
      var raised := InitializeLib(initResult);
      if raised {
        return Failed;
      }
      if connectionType == "slave" {
        if openResult != 0 {
          cm.CallCallbacks("transport_connection_failed", map[]);
          return Failed;
        }
      } else if !clientAvailable {
        cm.CallCallbacks("transport_connection_failed", map[]);
        return if handling then Failed else Crashed;
      }
      outcome := Returned;
    }

    /** The end of `run`, once the error event is set: marked disconnected,
        the event announced; the closing `_disconnect` does nothing. */
    method RunEnded()
      requires errorEvent
      modifies this`connected, cm`log, this`queue, this`errorEvent
      ensures !connected && errorEvent && queue == old(queue)
      ensures cm.log == old(cm.log) + [Dispatch("transport_disconnected", map[], cm.Handlers("transport_disconnected"))]
    {
      connected := false;
      cm.CallCallbacks("transport_disconnected", map[]);
      Disconnect();
    }

    /** handle_data */
    method HandleData(received: string) returns (raised: bool)
      modifies this`buffer, this`queue, this`errorEvent, cm`log
      ensures var data := old(buffer) + received;
              data == "" ==> !raised && buffer == "" && cm.log == old(cm.log)
                             && (old(connected) ==> queue == [] && errorEvent)
                             && (!old(connected) ==> queue == old(queue) && errorEvent == old(errorEvent))
      ensures var data := old(buffer) + received;
              var d := Deliver(deserialize, old(cm.registry), Split(data).0);
              data != "" ==> raised == d.1 && cm.log == old(cm.log) + d.0
                             && queue == old(queue) && errorEvent == old(errorEvent)
                             && buffer == (if raised then "" else Split(data).1)
      ensures var data := old(buffer) + received;
              data != "" && !raised ==> Join(Split(data).0, buffer) == data && NL !in buffer
    {
      var data := buffer + received;
      buffer := "";
      if data == "" {
        Disconnect();
        return false;
      }
      if NL !in data {
        buffer := buffer + data;
        return false;
      }
      var rest;
      raised, rest := ParseLines(cm, deserialize, data);
      if raised {
        return;
      }
      buffer := buffer + rest;
      SplitJoin(data);
      SplitClean(data);
    }

    /** send: every record carries `origin=-1`; it is queued only while
        connected. */
    method Send(msgType: string, kwargs: Fields)
      requires "type" !in kwargs && "origin" !in kwargs
      modifies this`queue
      ensures queue == if connected then old(queue) + [serialize(Message(msgType, kwargs["origin" := VInt(-1)]))]
                       else old(queue)
    {
      var obj := serialize(Message(msgType, kwargs["origin" := VInt(-1)]));
      if connected {
        queue := queue + [obj];
      }
    }

    /** _disconnect: when connected, the error event is set (which ends `run`)
        and the queue emptied; `connected` itself is left alone. */
    method Disconnect()
      modifies this`queue, this`errorEvent
      ensures !old(connected) ==> queue == old(queue) && errorEvent == old(errorEvent)
      ensures old(connected) ==> queue == [] && errorEvent
    {
      if !connected {
        return;
      }
      errorEvent := true;
      queue := [];
    }

    /** close; `terminateResult` is what the library's Terminate returns. */
    method Close(terminateResult: int) returns (raised: bool)
      modifies this`closed, this`reconnector, this`queue, this`errorEvent, this`initialized,
               cm`log, reconnector`running
      ensures cm.log == old(cm.log) + [Dispatch("transport_closing", map[], cm.Handlers("transport_closing"))]
      ensures !old(reconnector).running
      ensures old(connected) ==> queue == [] && errorEvent
      ensures !old(connected) ==> queue == old(queue) && errorEvent == old(errorEvent)
      ensures raised == (old(initialized) && terminateResult != 0)
      ensures initialized == raised
      ensures raised ==> closed == old(closed) && reconnector == old(reconnector)
      ensures !raised ==> closed && fresh(reconnector) && reconnector.running && reconnector.attempts == 0
    {
      cm.CallCallbacks("transport_closing", map[]);
      reconnector.running := false;
      Disconnect();
      raised := TerminateLib(terminateResult);
      if raised {
        return;
      }
      closed := true;
      reconnector := new ConnectorThread();
    }

    /** handle_p2p: the peer's protocol version decides the reply, compared
        with Python's `==`, so a `long` such as `2L` counts as equal to `2`. */
    method HandleP2p(version: Value, kwargs: Fields)
      modifies this`queue
      ensures PyEq(version, VInt(PROTOCOL_VERSION)) ==>
                queue == old(queue) + (if connected then [serialize(Message("client_joined", map[
                  "client" := VDict(map["id" := VInt(-1), "connection_type" := VStr(connectionType)]),
                  "origin" := VInt(-1)]))] else [])
      ensures !PyEq(version, VInt(PROTOCOL_VERSION)) ==>
                queue == old(queue) + (if connected then [serialize(Message("version_mismatch", map["origin" := VInt(-1)]))] else [])
    {
      if PyEq(version, VInt(PROTOCOL_VERSION)) {
        Send("client_joined", map["client" := VDict(map["id" := VInt(-1), "connection_type" := VStr(connectionType)])]);
      } else {
        Send("version_mismatch", map[]);
      }
    }

    /** _OnNewChannelConnection: connected, then the version announcement. */
    method OnNewChannelConnection()
      modifies this`successfulConnects, this`connected, cm`log, this`queue
      ensures connected && successfulConnects == old(successfulConnects) + 1
      ensures cm.log == old(cm.log) + [Dispatch("transport_connected", map[], cm.Handlers("transport_connected"))]
      ensures queue == old(queue) + [serialize(Message("protocol_version", map["version" := protocolVersion, "origin" := VInt(-1)]))]
    {
      TransportConnected();
      Send("protocol_version", map["version" := protocolVersion]);
    }

    /** _OnDataReceived: the first `cbSize` characters of `data`.  Text with no
        NUL is only appended to the buffer; text with a NUL is framed with its
        NULs removed. */
    method OnDataReceived(cbSize: nat, data: seq<char>) returns (raised: bool)
      requires cbSize <= |data|
      modifies this`buffer, this`queue, this`errorEvent, cm`log
      ensures '\0' !in data[..cbSize] ==> !raised && buffer == old(buffer) + data[..cbSize]
                                          && queue == old(queue) && cm.log == old(cm.log)
      ensures '\0' in data[..cbSize] ==>
                var all := old(buffer) + Without(data[..cbSize], '\0');
                all == "" ==> !raised && buffer == "" && cm.log == old(cm.log)
                              && (old(connected) ==> queue == [] && errorEvent)
                              && (!old(connected) ==> queue == old(queue) && errorEvent == old(errorEvent))
      ensures '\0' in data[..cbSize] ==>
                var all := old(buffer) + Without(data[..cbSize], '\0');
                var d := Deliver(deserialize, old(cm.registry), Split(all).0);
                all != "" ==> raised == d.1 && cm.log == old(cm.log) + d.0
                              && queue == old(queue) && errorEvent == old(errorEvent)
                              && buffer == (if raised then "" else Split(all).1)
    {
      var s := data[..cbSize];
      if '\0' !in s {
        buffer := buffer + s;
        return false;
      }
      raised := HandleData(Without(s, '\0'));
    }

    /** _OnReadError */
    method OnReadError()
      modifies this`errorEvent
      ensures errorEvent
    {
      errorEvent := true;
    }

    /** _OnClose: the peer is announced as having left, then disconnected. */
    method OnClose()
      modifies cm`log, this`queue, this`errorEvent
      ensures cm.log == old(cm.log) + [Dispatch("msg_client_left", map["client" := VDict(map["id" := VInt(-1)])],
                                                cm.Handlers("msg_client_left"))]
      ensures old(connected) ==> queue == [] && errorEvent
      ensures !old(connected) ==> queue == old(queue) && errorEvent == old(errorEvent)
    {
      cm.CallCallbacks("msg_client_left", map["client" := VDict(map["id" := VInt(-1)])]);
      Disconnect();
    }
  }

  /** A whole line and its newline frame to that one line. */
  lemma SplitOneLine(line: string)
    requires NL !in line
    ensures Split(line + [NL]) == ([line], "")
  {
    var empty: string := [];
    SplitCons(line, empty);
    assert Split(empty) == ([], empty);
    assert line + [NL] + empty == line + [NL];
    assert [line] + [] == [line];
  }

  /** A record carrying a `type` dispatches its other fields. */
  lemma ClassifyMessage(msgType: string, fields: Fields)
    requires "type" !in fields
    ensures Classify(Some(Message(msgType, fields))) == Dispatched("msg_" + msgType, fields)
  {
  }

  /** A single well-formed record: one dispatch, and no raise. */
  lemma DeliverOneRecord(des: string -> Option<Fields>, registry: map<string, seq<Handler>>,
                         line: string, msgType: string, fields: Fields)
    requires "type" !in fields
    requires des(line) == Some(Message(msgType, fields))
    ensures Deliver(des, registry, [line])
            == ([Dispatch("msg_" + msgType, fields, HandlersIn(registry, "msg_" + msgType))], false)
  {
    ClassifyMessage(msgType, fields);
    var d := Dispatch("msg_" + msgType, fields, HandlersIn(registry, "msg_" + msgType));
    assert [line][0] == line && [line][1..] == [];
    assert Deliver(des, registry, []) == ([], false);
    assert [d] + [] == [d];
  }

  /** A single well-formed record and its newline, as a transport receives
      them: one dispatch, no raise, nothing left over. */
  lemma ReceiveOneRecord(des: string -> Option<Fields>, registry: map<string, seq<Handler>>,
                         line: string, msgType: string, fields: Fields)
    requires NL !in line && "type" !in fields
    requires des(line) == Some(Message(msgType, fields))
    ensures Split(line + [NL]).1 == ""
    ensures Deliver(des, registry, Split(line + [NL]).0)
            == ([Dispatch("msg_" + msgType, fields, HandlersIn(registry, "msg_" + msgType))], false)
  {
    SplitOneLine(line);
    DeliverOneRecord(des, registry, line, msgType, fields);
  }

  lemma PeerVersionEvent()
    ensures "msg_" + "protocol_version" == "msg_protocol_version"
  {
  }

  /** One peer `protocol_version` record arriving as a whole line:
      `handle_data` dispatches it to the transport's own `handle_p2p`, and
      running that handler queues the reply on the same transport. */
  method ReceivePeerVersion(t: DvcTransport, line: string, version: Value, kwargs: Fields)
    returns (raised: bool)
    requires t.buffer == "" && NL !in line && "type" !in kwargs
    requires t.deserialize(line) == Some(Message("protocol_version", kwargs["version" := version]))
    requires HandlersIn(t.cm.registry, "msg_protocol_version") == [DvcHandleP2p]
    modifies t`buffer, t`queue, t`errorEvent, t.cm`log
    ensures !raised && t.buffer == "" && t.errorEvent == old(t.errorEvent)
    ensures t.cm.log == old(t.cm.log) + [Dispatch("msg_protocol_version", kwargs["version" := version], [DvcHandleP2p])]
    ensures t.queue == old(t.queue) +
            if !t.connected then []
            else if PyEq(version, VInt(PROTOCOL_VERSION))
            then [t.serialize(Message("client_joined", map[
                    "client" := VDict(map["id" := VInt(-1), "connection_type" := VStr(t.connectionType)]),
                    "origin" := VInt(-1)]))]
            else [t.serialize(Message("version_mismatch", map["origin" := VInt(-1)]))]
  {
    var fields := kwargs["version" := version];
    var data := line + [NL];
    ReceiveOneRecord(t.deserialize, t.cm.registry, line, "protocol_version", fields);
    assert t.buffer + data == data;
    raised := t.HandleData(data);
    PeerVersionEvent();
    t.HandleP2p(version, kwargs);
  }
}
