/**
 * `AbstractClient`: one connection, outbound or accepted, over a transport
 * driver the model does not see. The driver's four hooks (`_socketConnect`,
 * `_socketHook`, `_socketSend`, `_socketDisconnect`) are recorded, in call
 * order, in `driverCalls`; every handler invocation is recorded, in call
 * order, in `calls`.
 */
module Connection {
  import opened Wrappers
  import opened JsValues
  import opened Seqs
  import opened EventHub
  import opened Config

  /** An attached transport socket (opaque). */
  datatype SocketHandle = SocketHandle(id: nat)

  /** An invocation of one of the driver's hooks. */
  datatype DriverCall = SocketConnect | SocketHook | SocketSend(buffer: Bytes) | SocketDisconnect

  /** What the client's operations throw. */
  datatype ClientError =
    | InvalidConfig(config: ConfigError)
    | ReconnectNotAllowed
    | InvalidPayload
    | NotConnected
    | SocketClosed
    | MustReadBuffer
  {
    function Message(): string
    {
      match this
      case InvalidConfig(c) => c.Message()
      case ReconnectNotAllowed => "Reconnect not allowed."
      case InvalidPayload => "Data must be of Buffer or string type."
      case NotConnected => "Not connected"
      case SocketClosed => "Socket is closed, cannot send."
      case MustReadBuffer => "Must read buffer."
    }
  }

  const ConnectEvent := "connect"
  const DataEvent := "data"
  const ErrorEvent := "error"
  const DisconnectEvent := "disconnect"

  /**
   * What `send(buffer)` hands to the driver, or what it throws. The checks
   * run in a fixed order and the first failure wins: the payload's type,
   * then the socket, then the disconnected flag. A string is encoded to
   * bytes, a `Buffer` passes as it is.
   */
  function SendOutcome(buffer: JsValue, bound: bool, isDisconnected: bool): (r: Result<Bytes, ClientError>)
    ensures r.Success? <==> (buffer.Str? || buffer.Bytes?) && bound && !isDisconnected
    ensures !(buffer.Str? || buffer.Bytes?) ==> r == Failure(InvalidPayload)
    ensures (buffer.Str? || buffer.Bytes?) && !bound ==> r == Failure(NotConnected)
    ensures (buffer.Str? || buffer.Bytes?) && bound && isDisconnected ==> r == Failure(SocketClosed)
    ensures r.Success? && buffer.Bytes? ==> r.value == buffer.data
    ensures r.Success? && buffer.Str? ==> r.value == Utf8(buffer.s)
  {
    if !buffer.Bytes? && !buffer.Str? then Failure(InvalidPayload)
    else
      var bytes := if buffer.Bytes? then buffer.data else Utf8(buffer.s);
      if !bound then Failure(NotConnected)
      else if isDisconnected then Failure(SocketClosed)
      else Success(bytes)
  }

  /**
   * Once a client is flagged disconnected, every `send` fails, whatever the
   * payload: with the type error when the payload is neither a string nor a
   * `Buffer`, otherwise with "Not connected" or "Socket is closed".
   */
  lemma SendAfterDisconnectFails(buffer: JsValue, bound: bool)
    ensures SendOutcome(buffer, bound, true).Failure?
    ensures SendOutcome(buffer, bound, true).error ==
              if !(buffer.Str? || buffer.Bytes?) then InvalidPayload
              else if !bound then NotConnected
              else SocketClosed
  {
  }

  /** `disconnect()` asks the driver to tear down only a bound, not yet disconnected client. */
  predicate RequestsDisconnect(bound: bool, isDisconnected: bool)
  {
    bound && !isDisconnected
  }

  class Client {
    const connectOptions: Option<Options>
    var socket: Option<SocketHandle>
    var eventHandlers: Table
    var isDisconnected: bool
    /** Whether `data` payloads are buffered while no data handler is registered. */
    var bufferData: bool
    /** Every handler invocation, in order. */
    var calls: seq<Call>
    /** Every driver hook invocation, in order. */
    var driverCalls: seq<DriverCall>

    /**
     * The part of `new AbstractClient(connectOptions, socket)` after
     * validation: a given socket makes the client bound and runs the driver's
     * `_socketHook`.
     */
    constructor (connectOptions: Option<Options>, socket: Option<SocketHandle>)
      ensures this.connectOptions == connectOptions && this.socket == socket
      ensures eventHandlers == map[] && calls == []
      ensures !isDisconnected && bufferData
      ensures driverCalls == if socket.Some? then [SocketHook] else []
    {
      this.connectOptions := connectOptions;
      this.socket := socket;
      eventHandlers := map[];
      isDisconnected := false;
      bufferData := true;
      calls := [];
      driverCalls := if socket.Some? then [SocketHook] else [];
    }

    /**
     * `new AbstractClient(connectOptions, socket)`. Without a socket the
     * options are validated first and a refusal throws before any object
     * exists; with a socket, validation is skipped.
     */
    static method Create(connectOptions: Option<Options>, socket: Option<SocketHandle>)
      returns (r: Result<Client, ClientError>)
      ensures socket.None? && ValidateClientConfig(connectOptions).Fail? <==> r.Failure?
      ensures r.Failure? ==> r.error == InvalidConfig(ValidateClientConfig(connectOptions).error)
      ensures r.Success? ==> fresh(r.value)
      ensures r.Success? ==> var c := r.value;
                && c.connectOptions == connectOptions && c.socket == socket
                && c.eventHandlers == map[] && c.calls == []
                && !c.isDisconnected && c.bufferData
                && c.driverCalls == if socket.Some? then [SocketHook] else []
    {
      if socket.None? {
        var v := ValidateClientConfig(connectOptions);
        if v.Fail? {
          return Failure(InvalidConfig(v.error));
        }
      }
      var c := new Client(connectOptions, socket);
      r := Success(c);
    }

    /**
     * `connect()`: refused once a socket is attached, so a socket is never
     * replaced. Otherwise the driver's `_socketConnect` attaches `created`
     * and `_socketHook` runs.
     */
    method Connect(created: SocketHandle) returns (r: Outcome<ClientError>)
      modifies this`socket, this`driverCalls
      ensures old(socket).Some? ==> r == Fail(ReconnectNotAllowed) && socket == old(socket) && driverCalls == old(driverCalls)
      ensures old(socket).None? ==>
                r == Pass && socket == Some(created) && driverCalls == old(driverCalls) + [SocketConnect, SocketHook]
    {
      if socket.Some? {
        return Fail(ReconnectNotAllowed);
      }
      socket := Some(created);
      driverCalls := driverCalls + [SocketConnect];
      driverCalls := driverCalls + [SocketHook];
      r := Pass;
    }

    /**
     * `send(buffer)`: on success the driver's `_socketSend` is called exactly
     * once, with the bytes `r.value`; on failure nothing happens.
     */
    method Send(buffer: JsValue) returns (r: Result<Bytes, ClientError>)
      modifies this`driverCalls
      ensures r == SendOutcome(buffer, socket.Some?, isDisconnected)
      ensures driverCalls == old(driverCalls) + if r.Success? then [SocketSend(r.value)] else []
    {
      var bytes: Bytes;
      if buffer.Bytes? {
        bytes := buffer.data;
      } else if buffer.Str? {
        bytes := Utf8(buffer.s);
      } else {
        return Failure(InvalidPayload);
      }
      if socket.None? {
        return Failure(NotConnected);
      }
      if isDisconnected {
        return Failure(SocketClosed);
      }
      driverCalls := driverCalls + [SocketSend(bytes)];
      r := Success(bytes);
    }

    /**
     * `disconnect()`: a request to the driver. It calls `_socketDisconnect`
     * exactly once when the client is bound and not yet disconnected, and
     * never otherwise; it does not itself change `isDisconnected`.
     * `requested` reports whether the hook ran.
     */
    method Disconnect() returns (requested: bool)
      modifies this`driverCalls
      ensures requested == RequestsDisconnect(socket.Some?, isDisconnected)
      ensures driverCalls == old(driverCalls) + if requested then [SocketDisconnect] else []
    {
      if isDisconnected {
        return false;
      }
      if socket.None? {
        return false;
      }
      driverCalls := driverCalls + [SocketDisconnect];
      requested := true;
    }

    /** `_on(event, fn)`: see `EventHub.Register`. */
    method On(event: string, fn: Handler)
      modifies this`eventHandlers, this`calls
      ensures eventHandlers == Register(old(eventHandlers), event, fn).table
      ensures calls == old(calls) + Register(old(eventHandlers), event, fn).calls
    {
      var entry := Lookup(eventHandlers, event);
      if |entry.fns| == 0 {
        var i := 0;
        while i < |entry.queue|
          invariant 0 <= i <= |entry.queue|
          invariant eventHandlers == old(eventHandlers)
          invariant calls == old(calls) + Replay(fn, entry.queue[..i])
        {
          assert entry.queue[..i + 1][..i] == entry.queue[..i];
          calls := calls + [Call(fn, entry.queue[i])];
          i := i + 1;
        }
        assert entry.queue[..i] == entry.queue;
        entry := entry.(queue := []);
      }
      eventHandlers := eventHandlers[event := entry.(fns := entry.fns + [fn])];
    }

    /** `_off(event, fn)`: see `EventHub.Unregister`. */
    method Off(event: string, fn: Handler)
      modifies this`eventHandlers
      ensures eventHandlers == Unregister(old(eventHandlers), event, fn)
    {
      if event in eventHandlers {
        var entry := eventHandlers[event];
        var index := IndexOf(entry.fns, fn);
        if index > -1 {
          eventHandlers := eventHandlers[event := entry.(fns := entry.fns[..index] + entry.fns[index + 1..])];
        }
      }
    }

    /**
     * `_triggerEvent(event, data, doBuffer)`, with the buffered payload kept
     * even for an event that had no entry yet: see `EventHub.Trigger` and,
     * for the code as written, `EventHub.TriggerAsWritten`.
     */
    method TriggerEvent(event: string, data: JsValue, doBuffer: bool)
      modifies this`eventHandlers, this`calls
      ensures eventHandlers == Trigger(old(eventHandlers), event, data, doBuffer).table
      ensures calls == old(calls) + Trigger(old(eventHandlers), event, data, doBuffer).calls
    {
      var entry := Lookup(eventHandlers, event);
      if |entry.fns| == 0 {
        if doBuffer {
          eventHandlers := eventHandlers[event := entry.(queue := entry.queue + [data])];
        }
      } else {
        var i := 0;
        while i < |entry.fns|
          invariant 0 <= i <= |entry.fns|
          invariant eventHandlers == old(eventHandlers)
          invariant calls == old(calls) + Deliver(entry.fns[..i], data)
        {
          assert entry.fns[..i + 1][..i] == entry.fns[..i];
          calls := calls + [Call(entry.fns[i], data)];
          i := i + 1;
        }
        assert entry.fns[..i] == entry.fns;
      }
    }

    /**
     * `_disconnect()`: sets the flag and emits `disconnect` with the client
     * itself, never buffered. It does so on every call.
     */
    method Disconnected()
      modifies this`isDisconnected, this`eventHandlers, this`calls
      ensures isDisconnected
      ensures eventHandlers == old(eventHandlers)
      ensures calls == old(calls) + Deliver(Lookup(eventHandlers, DisconnectEvent).fns, Ref(this))
    {
      isDisconnected := true;
      TriggerEvent(DisconnectEvent, Ref(this), false);
    }

    /**
     * `_data(data)`: a non-`Buffer` throws; a `Buffer` is emitted as `data`,
     * buffered when no data handler is registered and `bufferData` is set.
     */
    method Data(data: JsValue) returns (r: Outcome<ClientError>)
      modifies this`eventHandlers, this`calls
      ensures !data.Bytes? ==> r == Fail(MustReadBuffer) && eventHandlers == old(eventHandlers) && calls == old(calls)
      ensures data.Bytes? ==> r == Pass
      ensures data.Bytes? ==> eventHandlers == Trigger(old(eventHandlers), DataEvent, data, bufferData).table
      ensures data.Bytes? ==> calls == old(calls) + Trigger(old(eventHandlers), DataEvent, data, bufferData).calls
    {
      if !data.Bytes? {
        return Fail(MustReadBuffer);
      }
      TriggerEvent(DataEvent, data, bufferData);
      r := Pass;
    }

    /** `_connect()`: emits `connect` with no payload, never buffered. */
    method Connected()
      modifies this`eventHandlers, this`calls
      ensures eventHandlers == old(eventHandlers)
      ensures calls == old(calls) + Deliver(Lookup(eventHandlers, ConnectEvent).fns, Null)
    {
      TriggerEvent(ConnectEvent, Null, false);
    }

    /** `_error(msg)`: emits `error` with `msg`, never buffered. */
    method Error(msg: JsValue)
      modifies this`eventHandlers, this`calls
      ensures eventHandlers == old(eventHandlers)
      ensures calls == old(calls) + Deliver(Lookup(eventHandlers, ErrorEvent).fns, msg)
    {
      TriggerEvent(ErrorEvent, msg, false);
    }

    /** `onError(fn)`: registers `fn` for `error`. */
    method OnError(fn: Handler)
      modifies this`eventHandlers, this`calls
      ensures eventHandlers == Register(old(eventHandlers), ErrorEvent, fn).table
      ensures calls == old(calls) + Register(old(eventHandlers), ErrorEvent, fn).calls
    {
      On(ErrorEvent, fn);
    }

    /** `offError(fn)`: unregisters `fn` from `error`. */
    method OffError(fn: Handler)
      modifies this`eventHandlers
      ensures eventHandlers == Unregister(old(eventHandlers), ErrorEvent, fn)
    {
      Off(ErrorEvent, fn);
    }

    /** `onData(fn)`: registers `fn` for `data`, replaying buffered data to it when it is the first. */
    method OnData(fn: Handler)
      modifies this`eventHandlers, this`calls
      ensures eventHandlers == Register(old(eventHandlers), DataEvent, fn).table
      ensures calls == old(calls) + Register(old(eventHandlers), DataEvent, fn).calls
    {
      On(DataEvent, fn);
    }

    /** `offData(fn)`: unregisters `fn` from `data`. */
    method OffData(fn: Handler)
      modifies this`eventHandlers
      ensures eventHandlers == Unregister(old(eventHandlers), DataEvent, fn)
    {
      Off(DataEvent, fn);
    }

    /** `onConnect(fn)`: registers `fn` for `connect`. */
    method OnConnect(fn: Handler)
      modifies this`eventHandlers, this`calls
      ensures eventHandlers == Register(old(eventHandlers), ConnectEvent, fn).table
      ensures calls == old(calls) + Register(old(eventHandlers), ConnectEvent, fn).calls
    {
      On(ConnectEvent, fn);
    }

    /** `offConnect(fn)`: unregisters `fn` from `connect`. */
    method OffConnect(fn: Handler)
      modifies this`eventHandlers
      ensures eventHandlers == Unregister(old(eventHandlers), ConnectEvent, fn)
    {
      Off(ConnectEvent, fn);
    }

    /** `onDisconnect(fn)`: registers `fn` for `disconnect`. */
    method OnDisconnect(fn: Handler)
      modifies this`eventHandlers, this`calls
      ensures eventHandlers == Register(old(eventHandlers), DisconnectEvent, fn).table
      ensures calls == old(calls) + Register(old(eventHandlers), DisconnectEvent, fn).calls
    {
      On(DisconnectEvent, fn);
    }

    /** `offDisconnect(fn)`: unregisters `fn` from `disconnect`. */
    method OffDisconnect(fn: Handler)
      modifies this`eventHandlers
      ensures eventHandlers == Unregister(old(eventHandlers), DisconnectEvent, fn)
    {
      Off(DisconnectEvent, fn);
    }
  }
}
