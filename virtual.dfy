/**
 * `VirtualClient`: an in-process client whose driver hooks copy each sent
 * `Buffer` into a paired client's `_data`. With a simulated latency a copy is
 * deferred to a timer; the outgoing queue makes deliveries follow send order
 * whatever order the timers fire in.
 *
 * The `AbstractClient` part of a virtual client is the `Client` object
 * `base`; a handler that receives `Ref(base)` receives the virtual client.
 */
module VirtualTransport {
  import opened Wrappers
  import opened JsValues
  import opened EventHub
  import opened Connection

  /** The `{}` passed as the socket of every virtual client: truthy, never used. */
  const PlaceholderSocket := SocketHandle(0)

  /**
   * The outgoing side of a virtual client: the queue of buffers waiting to be
   * copied, the number of copy timers still pending, and the buffers already
   * handed to the paired client, in delivery order.
   */
  datatype Pipe = Pipe(queue: seq<Bytes>, pending: nat, delivered: seq<Bytes>)

  /** A pipe with nothing queued, pending or delivered. */
  const EmptyPipe := Pipe([], 0, [])

  /**
   * `_copyToPaired()`: the OLDEST queued buffer leaves the queue and is
   * delivered; nothing is lost or reordered.
   */
  function Shift(p: Pipe): (r: Pipe)
    requires p.queue != []
    ensures r.delivered + r.queue == p.delivered + p.queue
    ensures |r.delivered| == |p.delivered| + 1 && r.delivered[|p.delivered|] == p.queue[0]
    ensures r.pending == p.pending
  {
    Pipe(p.queue[1..], p.pending, p.delivered + [p.queue[0]])
  }

  /**
   * `_socketSend(buffer)` on a paired client: the buffer joins the back of
   * the queue; with a positive latency one more timer is pending, otherwise
   * the queue's head is copied at once (the head, which is not `buffer` when
   * earlier delayed copies are still pending).
   */
  function Push(p: Pipe, buffer: Bytes, delayed: bool): (r: Pipe)
    ensures r.delivered + r.queue == p.delivered + p.queue + [buffer]
    ensures |p.queue| == p.pending ==> |r.queue| == r.pending
    ensures delayed ==> r.delivered == p.delivered && r.pending == p.pending + 1
    ensures !delayed ==>
              |r.delivered| == |p.delivered| + 1 && r.delivered[|p.delivered|] == (p.queue + [buffer])[0]
  {
    var q := Pipe(p.queue + [buffer], p.pending, p.delivered);
    if delayed then q.(pending := p.pending + 1) else Shift(q)
  }

  /** A pending timer fires: one copy, one timer fewer. */
  function Fire(p: Pipe): (r: Pipe)
    requires p.queue != [] && p.pending > 0
    ensures r.delivered + r.queue == p.delivered + p.queue
    ensures r.pending == p.pending - 1 && |r.queue| == |p.queue| - 1
    ensures r.delivered == p.delivered + [p.queue[0]]
  {
    Shift(p).(pending := p.pending - 1)
  }

  /** Why `_copyToPaired` throws: no paired client, or the paired client's `_data` refused the value. */
  datatype CopyFailure = NoPairedClient | PeerRefused(error: ClientError)

  /**
   * A send with no latency when nothing is queued: the buffer reaches the
   * paired client at once and the queue is left as it was, empty.
   */
  lemma ImmediateSendOnIdlePipe(p: Pipe, buffer: Bytes)
    requires p.queue == []
    ensures Push(p, buffer, false) == Pipe([], p.pending, p.delivered + [buffer])
  {
  }

  /**
   * A send with no latency while delayed copies are still queued: the paired
   * client receives the oldest queued buffer, and the new one waits at the
   * back of the queue for a pending timer.
   */
  lemma ImmediateSendBehindDelayed(p: Pipe, buffer: Bytes)
    requires p.queue != []
    ensures Push(p, buffer, false).delivered == p.delivered + [p.queue[0]]
    ensures Push(p, buffer, false).queue == p.queue[1..] + [buffer]
  {
  }

  /** What can happen to a paired client's outgoing side. */
  datatype Activity = Sent(buffer: Bytes, delayed: bool) | TimerFired

  /** The activities in order, from an empty pipe; a timer fires only while one is pending. */
  function Run(trace: seq<Activity>): Pipe
  {
    if trace == [] then EmptyPipe
    else
      var p := Run(trace[..|trace| - 1]);
      match trace[|trace| - 1]
      case Sent(b, delayed) => Push(p, b, delayed)
      case TimerFired => if p.pending > 0 && p.queue != [] then Fire(p) else p
  }

  /** The buffers sent in a trace, in send order. */
  function SentBuffers(trace: seq<Activity>): seq<Bytes>
  {
    if trace == [] then []
    else
      var init := SentBuffers(trace[..|trace| - 1]);
      match trace[|trace| - 1]
      case Sent(b, _) => init + [b]
      case TimerFired => init
  }

  /**
   * Whatever the latencies and however timers interleave with sends, the
   * delivered buffers followed by the queued ones are exactly the buffers
   * sent, in send order, and one timer is pending per queued buffer: so a
   * timer always finds a buffer to copy, and deliveries are a prefix of the
   * sends.
   */
  lemma {:induction false} RunKeepsSendOrder(trace: seq<Activity>)
    ensures Run(trace).delivered + Run(trace).queue == SentBuffers(trace)
    ensures |Run(trace).queue| == Run(trace).pending
  {
    if trace != [] {
      var init := trace[..|trace| - 1];
      RunKeepsSendOrder(init);
    }
  }

  /** Every pending timer fires, one after the other. */
  function Drain(p: Pipe): (r: Pipe)
    requires |p.queue| == p.pending
    decreases p.pending
  {
    if p.pending == 0 then p else Drain(Fire(p))
  }

  /**
   * Once every pending timer has fired, the queue is empty and every buffer
   * sent has been delivered exactly once, in send order.
   */
  lemma {:induction false} DrainDeliversAll(p: Pipe)
    requires |p.queue| == p.pending
    ensures Drain(p).queue == [] && Drain(p).pending == 0
    ensures Drain(p).delivered == p.delivered + p.queue
    decreases p.pending
  {
    if p.pending > 0 {
      DrainDeliversAll(Fire(p));
    }
  }

  /** The sends of a trace all reach the paired client once its timers have fired. */
  lemma TraceDeliversAll(trace: seq<Activity>)
    ensures |Run(trace).queue| == Run(trace).pending
    ensures Drain(Run(trace)).delivered == SentBuffers(trace)
  {
    RunKeepsSendOrder(trace);
    DrainDeliversAll(Run(trace));
  }

  class VirtualClient {
    /** The `AbstractClient` part of this client. */
    const base: Client
    var pairedSocket: VirtualClient?
    /** The simulated latency of each send, in milliseconds. */
    var latency: int
    var outQueue: seq<Bytes>
    /** The number of `setTimeout(() => this._copyToPaired(), latency)` still pending. */
    var scheduled: nat
    /** Every buffer put on the way to a paired client, in order. */
    ghost var sent: seq<Bytes>
    /** Every buffer handed to a paired client's `_data`, in order. */
    ghost var delivered: seq<Bytes>

    /** The outgoing side as a `Pipe`. */
    ghost function Channel(): Pipe
      reads this
    {
      Pipe(outQueue, scheduled, delivered)
    }

    /** The paired client's `AbstractClient` part, if any: what a copy writes to. */
    function PeerBase(): set<Client>
      reads this
    {
      if pairedSocket == null then {} else {pairedSocket.base}
    }

    /**
     * The client is bound; sent buffers are delivered or queued, in order,
     * with one pending timer per queued buffer; queued buffers have a paired
     * client to go to, which is another client.
     */
    ghost predicate Valid()
      reads this, base
    {
      && base.socket.Some?
      && sent == delivered + outQueue
      && |outQueue| == scheduled
      && (scheduled > 0 ==> pairedSocket != null)
      && (pairedSocket != null ==> pairedSocket.base != base)
    }

    /**
     * `new VirtualClient(pairedSocket)`: a client bound to a placeholder
     * socket without validating options, with no latency and an empty
     * queue. A given `pairedSocket` is paired back to the new client.
     */
    constructor (pairedSocket: VirtualClient?)
      requires pairedSocket != null ==> pairedSocket.Valid()
      modifies pairedSocket
      ensures Valid() && fresh(base)
      ensures this.pairedSocket == pairedSocket
      ensures latency == 0 && outQueue == [] && scheduled == 0 && sent == [] && delivered == []
      ensures base.connectOptions.None? && base.socket == Some(PlaceholderSocket)
      ensures base.eventHandlers == map[] && base.calls == [] && !base.isDisconnected && base.bufferData
      ensures base.driverCalls == [SocketHook]
      ensures pairedSocket != null ==>
                && pairedSocket.pairedSocket == this && pairedSocket.Valid()
                && pairedSocket.Channel() == old(pairedSocket.Channel())
                && pairedSocket.sent == old(pairedSocket.sent)
                && pairedSocket.latency == old(pairedSocket.latency)
    {
      base := new Client(None, Some(PlaceholderSocket));
      this.pairedSocket := pairedSocket;
      latency := 0;
      outQueue := [];
      scheduled := 0;
      sent := [];
      delivered := [];
      new;
      if pairedSocket != null {
        pairedSocket.pairedSocket := this;
      }
    }

    /** `setLatency(latency)` */
    method SetLatency(latency: int)
      modifies this`latency
      ensures this.latency == latency
    {
      this.latency := latency;
    }

    /**
     * `_copyToPaired()`: the queue's head, if any, is shifted off and handed
     * to the paired client's `_data`. An empty queue hands over `undefined`,
     * which the paired client refuses as not being a `Buffer`; without a
     * paired client the call fails after the shift.
     */
    method CopyToPaired() returns (r: Outcome<CopyFailure>)
      modifies this`outQueue, this`delivered, PeerBase()`eventHandlers, PeerBase()`calls
      ensures outQueue == if old(outQueue) == [] then [] else old(outQueue)[1..]
      ensures pairedSocket == null ==> r == Fail(NoPairedClient) && delivered == old(delivered)
      ensures pairedSocket != null && old(outQueue) == [] ==>
                && r == Fail(PeerRefused(MustReadBuffer)) && delivered == old(delivered)
                && pairedSocket.base.eventHandlers == old(pairedSocket.base.eventHandlers)
                && pairedSocket.base.calls == old(pairedSocket.base.calls)
      ensures pairedSocket != null && old(outQueue) != [] ==>
                var peer := pairedSocket.base; var data := Bytes(old(outQueue)[0]);
                && r == Pass && Channel() == Shift(old(Channel()))
                && peer.eventHandlers == Trigger(old(peer.eventHandlers), DataEvent, data, peer.bufferData).table
                && peer.calls == old(peer.calls) + Trigger(old(peer.eventHandlers), DataEvent, data, peer.bufferData).calls
    {
      var buffer := Null;
      if outQueue != [] {
        buffer := Bytes(outQueue[0]);
        outQueue := outQueue[1..];
      }
      if pairedSocket == null {
        return Fail(NoPairedClient);
      }
      var accepted := pairedSocket.base.Data(buffer);
      if accepted.Fail? {
        return Fail(PeerRefused(accepted.error));
      }
      delivered := delivered + [buffer.data];
      r := Pass;
    }

    /**
     * `_socketSend(buffer)`: dropped without a paired client. Otherwise the
     * buffer is queued and either a copy is scheduled (positive latency) or
     * the queue's head is copied at once.
     */
    method SocketSend(buffer: Bytes)
      requires Valid()
      modifies this`outQueue, this`scheduled, this`sent, this`delivered, PeerBase()`eventHandlers, PeerBase()`calls
      ensures Valid()
      ensures pairedSocket == null ==> Channel() == old(Channel()) && sent == old(sent)
      ensures pairedSocket != null ==> Channel() == Push(old(Channel()), buffer, latency > 0) && sent == old(sent) + [buffer]
      ensures pairedSocket != null && latency <= 0 ==>
                var peer := pairedSocket.base; var data := Bytes((old(outQueue) + [buffer])[0]);
                && peer.eventHandlers == Trigger(old(peer.eventHandlers), DataEvent, data, peer.bufferData).table
                && peer.calls == old(peer.calls) + Trigger(old(peer.eventHandlers), DataEvent, data, peer.bufferData).calls
      ensures pairedSocket != null && latency > 0 ==>
                var peer := pairedSocket.base;
                peer.eventHandlers == old(peer.eventHandlers) && peer.calls == old(peer.calls)
    {
      if pairedSocket != null {
        outQueue := outQueue + [buffer];
        sent := sent + [buffer];
        if latency > 0 {
          scheduled := scheduled + 1;
        } else {
          var _ := CopyToPaired();
        }
      }
    }

    /**
     * A pending copy timer fires. In a valid state it always finds a buffer
     * to copy and a paired client to take it, whatever order the timers fire in.
     */
    method RunScheduledCopy() returns (r: Outcome<CopyFailure>)
      requires Valid() && scheduled > 0
      modifies this`outQueue, this`scheduled, this`delivered, PeerBase()`eventHandlers, PeerBase()`calls
      ensures Valid()
      ensures r == Pass && Channel() == Fire(old(Channel()))
      ensures var peer := pairedSocket.base; var data := Bytes(old(outQueue)[0]);
              && peer.eventHandlers == Trigger(old(peer.eventHandlers), DataEvent, data, peer.bufferData).table
              && peer.calls == old(peer.calls) + Trigger(old(peer.eventHandlers), DataEvent, data, peer.bufferData).calls
    {
      r := CopyToPaired();
      scheduled := scheduled - 1;
    }

    /**
     * `_socketDisconnect()`: the paired client, if any, is marked disconnected
     * and emits `disconnect`, then this client does the same.
     */
    method SocketDisconnect()
      requires Valid()
      modifies base`isDisconnected, base`eventHandlers, base`calls
      modifies PeerBase()`isDisconnected, PeerBase()`eventHandlers, PeerBase()`calls
      ensures Valid()
      ensures base.isDisconnected && base.eventHandlers == old(base.eventHandlers)
      ensures base.calls == old(base.calls) + Deliver(Lookup(base.eventHandlers, DisconnectEvent).fns, Ref(base))
      ensures pairedSocket != null ==>
                var peer := pairedSocket.base;
                && peer.isDisconnected && peer.eventHandlers == old(peer.eventHandlers)
                && peer.calls == old(peer.calls) + Deliver(Lookup(peer.eventHandlers, DisconnectEvent).fns, Ref(peer))
    {
      if pairedSocket != null {
        pairedSocket.base.Disconnected();
      }
      base.Disconnected();
    }

    /**
     * `send(buffer)` on a virtual client: the checks of `AbstractClient.send`,
     * then `_socketSend` with the bytes. A virtual client is always bound, so
     * a string or `Buffer` fails only once the client is disconnected.
     */
    method Send(buffer: JsValue) returns (r: Result<Bytes, ClientError>)
      requires Valid()
      modifies base`driverCalls, this`outQueue, this`scheduled, this`sent, this`delivered
      modifies PeerBase()`eventHandlers, PeerBase()`calls
      ensures Valid()
      ensures r == SendOutcome(buffer, true, base.isDisconnected)
      ensures base.driverCalls == old(base.driverCalls) + if r.Success? then [DriverCall.SocketSend(r.value)] else []
      ensures r.Failure? || pairedSocket == null ==> Channel() == old(Channel()) && sent == old(sent)
      ensures r.Success? && pairedSocket != null ==>
                Channel() == Push(old(Channel()), r.value, latency > 0) && sent == old(sent) + [r.value]
      ensures r.Success? && pairedSocket != null && latency <= 0 ==>
                var peer := pairedSocket.base; var data := Bytes((old(outQueue) + [r.value])[0]);
                && peer.eventHandlers == Trigger(old(peer.eventHandlers), DataEvent, data, peer.bufferData).table
                && peer.calls == old(peer.calls) + Trigger(old(peer.eventHandlers), DataEvent, data, peer.bufferData).calls
      ensures (r.Failure? || latency > 0) && pairedSocket != null ==>
                var peer := pairedSocket.base;
                peer.eventHandlers == old(peer.eventHandlers) && peer.calls == old(peer.calls)
    {
      r := base.Send(buffer);
      if r.Success? {
        SocketSend(r.value);
      }
    }

    /**
     * `disconnect()` on a virtual client: when not yet disconnected, both
     * ends of the pair are marked disconnected and emit `disconnect`; once
     * disconnected, nothing happens.
     */
    method Disconnect() returns (requested: bool)
      requires Valid()
      modifies base`driverCalls, base`isDisconnected, base`eventHandlers, base`calls
      modifies PeerBase()`isDisconnected, PeerBase()`eventHandlers, PeerBase()`calls
      ensures Valid()
      ensures requested == !old(base.isDisconnected)
      ensures base.driverCalls == old(base.driverCalls) + if requested then [DriverCall.SocketDisconnect] else []
      ensures base.isDisconnected && base.eventHandlers == old(base.eventHandlers)
      ensures !requested ==> base.calls == old(base.calls)
      ensures requested ==> base.calls == old(base.calls) + Deliver(Lookup(base.eventHandlers, DisconnectEvent).fns, Ref(base))
      ensures pairedSocket != null ==> pairedSocket.base.eventHandlers == old(pairedSocket.base.eventHandlers)
      ensures requested && pairedSocket != null ==>
                var peer := pairedSocket.base;
                && peer.isDisconnected
                && peer.calls == old(peer.calls) + Deliver(Lookup(peer.eventHandlers, DisconnectEvent).fns, Ref(peer))
      ensures !requested && pairedSocket != null ==>
                var peer := pairedSocket.base;
                peer.isDisconnected == old(peer.isDisconnected) && peer.calls == old(peer.calls)
    {
      requested := base.Disconnect();
      if requested {
        SocketDisconnect();
      }
    }
  }

  /**
   * `CreatePair()`: two fresh virtual clients, each the other's pair, with
   * no latency and nothing queued. Both are bound, not disconnected, have no
   * handlers yet and buffer data.
   */
  method CreatePair() returns (a: VirtualClient, b: VirtualClient)
    ensures fresh(a) && fresh(b) && fresh(a.base) && fresh(b.base)
    ensures a.pairedSocket == b && b.pairedSocket == a
    ensures a.Valid() && b.Valid() && a.base != b.base
    ensures a.latency == 0 && b.latency == 0
    ensures a.Channel() == EmptyPipe && b.Channel() == EmptyPipe
    ensures a.base.socket == Some(PlaceholderSocket) && b.base.socket == Some(PlaceholderSocket)
    ensures !a.base.isDisconnected && !b.base.isDisconnected
    ensures a.base.eventHandlers == map[] && b.base.eventHandlers == map[]
    ensures a.base.calls == [] && b.base.calls == []
    ensures a.base.bufferData && b.base.bufferData
  {
    a := new VirtualClient(null);
    b := new VirtualClient(a);
  }

  /**
   * A fresh pair, a data handler `Fn(7)` on the second client, then
   * `send("hello")` on the first: with no latency the handler receives the
   * string's bytes at once, and only them.
   */
  method PairDeliversFirstSend() returns (received: seq<Call>)
    ensures received == [Call(Fn(7), Bytes(Utf8("hello")))]
  {
    var a, b := CreatePair();
    b.base.OnData(Fn(7));
    var r := a.Send(Str("hello"));
    received := b.base.calls;
  }
}
