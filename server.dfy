/**
 * `AbstractServer`: a listener that wraps each accepted transport socket in a
 * client and tracks the live ones in `clients`. The driver's hooks
 * (`_serverCreate`, `_serverListen`, `_serverClose`) are recorded, in call
 * order, in `driverCalls`; every handler invocation is recorded in `calls`.
 */
module Listener {
  import opened Wrappers
  import opened JsValues
  import opened Seqs
  import opened EventHub
  import opened Config
  import opened Connection

  /** A listening socket created by the driver (opaque). */
  datatype ServerHandle = ServerHandle(id: nat)

  /** An invocation of one of the listener driver's hooks. */
  datatype ServerDriverCall = ServerCreate | ServerListen | ServerClose

  /** What the listener's operations throw. */
  datatype ServerError = InvalidListenOptions(config: ConfigError) | SocketTypeNotSet
  {
    function Message(): string
    {
      match this
      case InvalidListenOptions(c) => c.Message()
      case SocketTypeNotSet => "SocketType must be a valid instance"
    }
  }

  const ConnectionEvent := "connection"
  const CloseEvent := "close"

  /**
   * The payload `_error(err)` emits: `err.message` when `err` is truthy and
   * its message is truthy, `err` itself otherwise.
   */
  function ErrorPayload(err: JsValue): (r: JsValue)
    ensures Truthy(MessageOf(err)) ==> err.ErrorObj? && r == err.message
    ensures !Truthy(MessageOf(err)) ==> r == err
  {
    if Truthy(err) && Truthy(MessageOf(err)) then MessageOf(err) else err
  }

  /**
   * The listener's `_on(event, fn)`: the handler is appended to the
   * event's list. Nothing is ever buffered or replayed.
   */
  function Subscribe(t: Listeners, event: string, fn: Handler): (r: Listeners)
    ensures HandlersOf(r, event) == HandlersOf(t, event) + [fn]
    ensures forall e :: e != event ==> HandlersOf(r, e) == HandlersOf(t, e)
  {
    t[event := HandlersOf(t, event) + [fn]]
  }

  class Server {
    const listenOptions: Options
    /** Whether a client class to wrap accepted sockets has been set (`SocketType`). */
    var socketType: bool
    /** The driver's listening socket, `null` until `_serverCreate` makes one. */
    var server: Option<ServerHandle>
    var eventHandlers: Listeners
    var clients: seq<Client>
    var isDisconnected: bool
    /** Every handler invocation, in order. */
    var calls: seq<Call>
    /** Every driver hook invocation, in order. */
    var driverCalls: seq<ServerDriverCall>

    /** Each client is tracked once. */
    ghost predicate Valid()
      reads this
    {
      Distinct(clients)
    }

    /**
     * The part of `new AbstractServer(listenOptions)` after validation: the
     * fields start empty and the driver's `_serverCreate` runs, leaving
     * `created` in `server`.
     */
    constructor (listenOptions: Options, created: Option<ServerHandle>)
      ensures Valid()
      ensures this.listenOptions == listenOptions && server == created
      ensures !socketType && clients == [] && !isDisconnected
      ensures eventHandlers == map[] && calls == []
      ensures driverCalls == [ServerCreate]
    {
      this.listenOptions := listenOptions;
      socketType := false;
      eventHandlers := map[];
      clients := [];
      isDisconnected := false;
      calls := [];
      // _serverCreate()
      driverCalls := [ServerCreate];
      server := created;
    }

    /**
     * `new AbstractServer(listenOptions)`: the options are validated before
     * anything else, so a refusal throws before `_serverCreate` could run.
     */
    static method Create(listenOptions: Option<Options>, created: Option<ServerHandle>)
      returns (r: Result<Server, ServerError>)
      ensures r.Failure? <==> ValidateServerConfig(listenOptions).Fail?
      ensures r.Failure? ==> r.error == InvalidListenOptions(ValidateServerConfig(listenOptions).error)
      ensures r.Success? ==> fresh(r.value) && r.value.Valid()
      ensures r.Success? ==> var s := r.value;
                && Some(s.listenOptions) == listenOptions && s.server == created
                && !s.socketType && s.clients == [] && !s.isDisconnected
                && s.eventHandlers == map[] && s.calls == []
                && s.driverCalls == [ServerCreate]
    {
      var v := ValidateServerConfig(listenOptions);
      if v.Fail? {
        return Failure(InvalidListenOptions(v.error));
      }
      var s := new Server(listenOptions.value, created);
      r := Success(s);
    }

    /** `listen()`: hands over to the driver's `_serverListen`. */
    method Listen()
      modifies this`driverCalls
      ensures driverCalls == old(driverCalls) + [ServerListen]
    {
      driverCalls := driverCalls + [ServerListen];
    }

    /**
     * `close()`: nothing without a listening socket. Otherwise the driver's
     * `_serverClose` runs once, `disconnect()` is called once on every client
     * tracked beforehand (each asks its driver to tear down when it is bound
     * and not yet disconnected), and `clients` ends empty. The per-client
     * effect is stated for a list without repeats, the only lists `_connection`
     * builds.
     */
    method Close()
      modifies this`driverCalls, this`clients, clients
      ensures old(Valid()) ==> Valid()
      ensures old(server).None? ==> driverCalls == old(driverCalls) && clients == old(clients)
      ensures old(server).Some? ==> driverCalls == old(driverCalls) + [ServerClose] && clients == []
      ensures forall c :: c in old(clients) ==>
                && c.socket == old(c.socket) && c.isDisconnected == old(c.isDisconnected)
                && c.bufferData == old(c.bufferData) && c.eventHandlers == old(c.eventHandlers)
                && c.calls == old(c.calls)
      ensures old(server).None? ==> forall c :: c in old(clients) ==> c.driverCalls == old(c.driverCalls)
      ensures old(Valid()) ==>
                forall c :: c in old(clients) ==>
                  c.driverCalls == old(c.driverCalls) +
                    if old(server).Some? && RequestsDisconnect(old(c.socket).Some?, old(c.isDisconnected))
                    then [SocketDisconnect] else []
    {
      if server.None? {
        return;
      }
      driverCalls := driverCalls + [ServerClose];
      var i := 0;
      while i < |clients|
        invariant 0 <= i <= |clients|
        invariant clients == old(clients)
        invariant driverCalls == old(driverCalls) + [ServerClose]
        invariant forall c :: c in clients ==>
                    && c.socket == old(c.socket) && c.isDisconnected == old(c.isDisconnected)
                    && c.bufferData == old(c.bufferData) && c.eventHandlers == old(c.eventHandlers)
                    && c.calls == old(c.calls)
        invariant Distinct(clients) ==>
                    forall j :: 0 <= j < i ==>
                      clients[j].driverCalls == old(clients[j].driverCalls) +
                        if RequestsDisconnect(old(clients[j].socket).Some?, old(clients[j].isDisconnected))
                        then [SocketDisconnect] else []
        invariant Distinct(clients) ==>
                    forall j :: i <= j < |clients| ==> clients[j].driverCalls == old(clients[j].driverCalls)
      {
        var _ := clients[i].Disconnect();
        i := i + 1;
      }
      clients := [];
    }

    /**
     * `_addClient(client)`: appends the client, registers exactly one
     * `disconnect` hook on it (the hook that runs `_removeClient(client)`),
     * then emits `connection` with the client. The list stays without
     * repeats exactly when the client was not tracked yet.
     */
    method AddClient(client: Client)
      modifies this`clients, this`calls, client`eventHandlers, client`calls
      ensures Valid() <==> old(Valid()) && client !in old(clients)
      ensures clients == old(clients) + [client]
      ensures client.eventHandlers == Register(old(client.eventHandlers), DisconnectEvent, RemoveClientHook(this, client)).table
      ensures client.calls == old(client.calls) + Register(old(client.eventHandlers), DisconnectEvent, RemoveClientHook(this, client)).calls
      ensures calls == old(calls) + Deliver(HandlersOf(eventHandlers, ConnectionEvent), Ref(client))
    {
      AppendDistinct(clients, client);
      clients := clients + [client];
      client.OnDisconnect(RemoveClientHook(this, client));
      TriggerEvent(ConnectionEvent, Ref(client));
    }

    /**
     * `_removeClient(client)`: the first occurrence of the client leaves
     * `clients`, the rest keep their order; an absent client changes nothing.
     */
    method RemoveClient(client: Client)
      modifies this`clients
      ensures clients == RemoveFirst(old(clients), client)
      ensures old(Valid()) ==> Valid() && client !in clients
    {
      if Valid() {
        RemoveKeepsDistinct(clients, client);
      }
      var index := IndexOf(clients, client);
      if index > -1 {
        clients := clients[..index] + clients[index + 1..];
      }
    }

    /**
     * `_connection(socket)`: refused while `SocketType` is unset, with
     * `clients` unchanged. Otherwise the accepted socket is wrapped in a new
     * client, built as `new SocketType(null, socket)` (bound, hooked, not
     * validated), and added.
     */
    method Connection(socket: SocketHandle) returns (r: Outcome<ServerError>, client: Client?)
      modifies this`clients, this`calls
      ensures old(Valid()) ==> Valid()
      ensures !socketType ==> r == Fail(SocketTypeNotSet) && client == null && clients == old(clients) && calls == old(calls)
      ensures socketType ==> r == Pass && client != null && fresh(client)
      ensures socketType ==> clients == old(clients) + [client]
      ensures socketType ==> client.socket == Some(socket) && !client.isDisconnected && client.driverCalls == [SocketHook]
      ensures socketType ==> client.connectOptions.None? && client.bufferData && client.calls == []
      ensures socketType ==> client.eventHandlers == map[DisconnectEvent := Entry([RemoveClientHook(this, client)], [])]
      ensures socketType ==> calls == old(calls) + Deliver(HandlersOf(eventHandlers, ConnectionEvent), Ref(client))
    {
      if !socketType {
        return Fail(SocketTypeNotSet), null;
      }
      var made := Client.Create(None, Some(socket));
      client := made.value;
      AddClient(client);
      r := Pass;
    }

    /** `_error(err)`: emits `error` with `ErrorPayload(err)`. */
    method Error(err: JsValue)
      modifies this`calls
      ensures calls == old(calls) + Deliver(HandlersOf(eventHandlers, ErrorEvent), ErrorPayload(err))
    {
      TriggerEvent(ErrorEvent, ErrorPayload(err));
    }

    /** `_close()`: emits `close` with no payload. */
    method Closed()
      modifies this`calls
      ensures calls == old(calls) + Deliver(HandlersOf(eventHandlers, CloseEvent), Null)
    {
      TriggerEvent(CloseEvent, Null);
    }

    /** `_on(event, fn)`: see `Subscribe`. */
    method On(event: string, fn: Handler)
      modifies this`eventHandlers
      ensures eventHandlers == Subscribe(old(eventHandlers), event, fn)
    {
      var fns := HandlersOf(eventHandlers, event);
      eventHandlers := eventHandlers[event := fns + [fn]];
    }

    /**
     * `_triggerEvent(event, data)`: every handler of the event is called
     * once with `data`, in registration order; with none, nothing happens.
     */
    method TriggerEvent(event: string, data: JsValue)
      modifies this`calls
      ensures calls == old(calls) + Deliver(HandlersOf(eventHandlers, event), data)
    {
      var fns := HandlersOf(eventHandlers, event);
      var i := 0;
      while i < |fns|
        invariant 0 <= i <= |fns|
        invariant calls == old(calls) + Deliver(fns[..i], data)
      {
        assert fns[..i + 1][..i] == fns[..i];
        calls := calls + [Call(fns[i], data)];
        i := i + 1;
      }
      assert fns[..i] == fns;
    }

    /** `onConnection(fn)`: registers `fn` for `connection`. */
    method OnConnection(fn: Handler)
      modifies this`eventHandlers
      ensures eventHandlers == Subscribe(old(eventHandlers), ConnectionEvent, fn)
    {
      On(ConnectionEvent, fn);
    }

    /** `onError(fn)`: registers `fn` for `error`. */
    method OnError(fn: Handler)
      modifies this`eventHandlers
      ensures eventHandlers == Subscribe(old(eventHandlers), ErrorEvent, fn)
    {
      On(ErrorEvent, fn);
    }

    /** `onClose(fn)`: registers `fn` for `close`. */
    method OnClose(fn: Handler)
      modifies this`eventHandlers
      ensures eventHandlers == Subscribe(old(eventHandlers), CloseEvent, fn)
    {
      On(CloseEvent, fn);
    }
  }
}
