/**
 * The event table of a client (`AbstractClient.eventHandlers`) as a value:
 * each event name maps to the pair `[fns, queue]` of registered handlers and
 * payloads buffered while no handler was registered. The functions here say
 * what `_on`, `_off` and `_triggerEvent` do to the table and which handler
 * invocations they make; the client's methods are proved to follow them.
 */
module EventHub {
  import opened JsValues
  import opened Seqs

  /**
   * A registered callback, identified by what it is: a user function with an
   * id, or the hook a listener installs on each accepted client
   * (`() => this._removeClient(client)`).
   */
  datatype Handler = Fn(id: nat) | RemoveClientHook(server: object, client: object)

  /** One invocation `fn(payload)`. */
  datatype Call = Call(handler: Handler, payload: JsValue)

  /** The `[fns, queue]` tuple stored per event. */
  datatype Entry = Entry(fns: seq<Handler>, queue: seq<JsValue>)

  type Table = map<string, Entry>

  /** What an operation leaves in the table and the invocations it made, in order. */
  datatype Step = Step(table: Table, calls: seq<Call>)

  /** `this.eventHandlers[event] || [[], []]` */
  function Lookup(t: Table, event: string): Entry
  {
    if event in t then t[event] else Entry([], [])
  }

  /** `fns.forEach(fn => fn(data))`: every handler once, in registration order. */
  function Deliver(fns: seq<Handler>, data: JsValue): (r: seq<Call>)
    ensures |r| == |fns|
    ensures forall i :: 0 <= i < |fns| ==> r[i] == Call(fns[i], data)
  {
    if fns == [] then [] else Deliver(fns[..|fns| - 1], data) + [Call(fns[|fns| - 1], data)]
  }

  /** `queue.forEach(event => fn(event))`: one handler, every payload in arrival order. */
  function Replay(fn: Handler, queue: seq<JsValue>): (r: seq<Call>)
    ensures |r| == |queue|
    ensures forall i :: 0 <= i < |queue| ==> r[i] == Call(fn, queue[i])
  {
    if queue == [] then [] else Replay(fn, queue[..|queue| - 1]) + [Call(fn, queue[|queue| - 1])]
  }

  /**
   * `_on(event, fn)`. The first handler of an event receives every buffered
   * payload, in arrival order, and the buffer is emptied; a later handler is
   * only appended. No other event changes.
   */
  function Register(t: Table, event: string, fn: Handler): (r: Step)
    ensures event in r.table
    ensures Lookup(r.table, event).fns == Lookup(t, event).fns + [fn]
    ensures Lookup(t, event).fns == [] ==>
              r.table[event].queue == [] &&
              |r.calls| == |Lookup(t, event).queue| &&
              forall i :: 0 <= i < |r.calls| ==> r.calls[i] == Call(fn, Lookup(t, event).queue[i])
    ensures Lookup(t, event).fns != [] ==>
              r.calls == [] && r.table[event].queue == t[event].queue
    ensures forall e :: e != event ==> Lookup(r.table, e) == Lookup(t, e)
  {
    var entry := Lookup(t, event);
    if |entry.fns| == 0 then
      Step(t[event := Entry([fn], [])], Replay(fn, entry.queue))
    else
      Step(t[event := Entry(entry.fns + [fn], entry.queue)], [])
  }

  /**
   * `_off(event, fn)`: the first occurrence of `fn` leaves the handler list,
   * the buffer stays; an unknown event or an absent handler changes nothing.
   */
  function Unregister(t: Table, event: string, fn: Handler): (r: Table)
    ensures Lookup(r, event).fns == RemoveFirst(Lookup(t, event).fns, fn)
    ensures Lookup(r, event).queue == Lookup(t, event).queue
    ensures fn !in Lookup(t, event).fns ==> r == t
    ensures forall e :: e != event ==> Lookup(r, e) == Lookup(t, e)
  {
    if event in t then t[event := Entry(RemoveFirst(t[event].fns, fn), t[event].queue)] else t
  }

  /**
   * `_triggerEvent(event, data, doBuffer)` with the buffered payload kept in
   * the table even when the event had no entry yet (see `TriggerAsWritten`).
   * With handlers, each is called once with `data`, in registration order,
   * and the table does not change; without, `data` joins the buffer when
   * `doBuffer` is set and is dropped otherwise.
   */
  function Trigger(t: Table, event: string, data: JsValue, doBuffer: bool): (r: Step)
    ensures Lookup(t, event).fns != [] ==>
              r.table == t && |r.calls| == |t[event].fns| &&
              forall i :: 0 <= i < |r.calls| ==> r.calls[i] == Call(t[event].fns[i], data)
    ensures Lookup(t, event).fns == [] && doBuffer ==>
              r.calls == [] && Lookup(r.table, event) == Entry([], Lookup(t, event).queue + [data])
    ensures Lookup(t, event).fns == [] && !doBuffer ==> r == Step(t, [])
    ensures forall e :: e != event ==> Lookup(r.table, e) == Lookup(t, e)
  {
    var entry := Lookup(t, event);
    if |entry.fns| == 0 then
      if doBuffer then Step(t[event := Entry([], entry.queue + [data])], []) else Step(t, [])
    else
      Step(t, Deliver(entry.fns, data))
  }

  /**
   * `_triggerEvent` exactly as written: the tuple `[[], []]` made up for an
   * event without an entry is never stored, so a payload buffered before the
   * event's first `_on` is pushed onto a throwaway array.
   */
  function TriggerAsWritten(t: Table, event: string, data: JsValue, doBuffer: bool): (r: Step)
    ensures event !in t ==> r == Step(t, [])
    ensures event in t ==> r == Trigger(t, event, data, doBuffer)
  {
    var entry := Lookup(t, event);
    if |entry.fns| == 0 then
      if doBuffer && event in t then Step(t[event := Entry([], entry.queue + [data])], []) else Step(t, [])
    else
      Step(t, Deliver(entry.fns, data))
  }

  /** Several `_triggerEvent` calls in a row, with their invocations concatenated. */
  function TriggerAll(t: Table, event: string, payloads: seq<JsValue>, doBuffer: bool): Step
  {
    if payloads == [] then Step(t, [])
    else
      var s := TriggerAll(t, event, payloads[..|payloads| - 1], doBuffer);
      var last := Trigger(s.table, event, payloads[|payloads| - 1], doBuffer);
      Step(last.table, s.calls + last.calls)
  }

  /**
   * Payloads raised while an event has no handler are all buffered, and the
   * handler registered next receives every one of them, in arrival order,
   * exactly once: the buffer is empty afterwards, and a second handler
   * receives nothing.
   */
  lemma {:induction false} BufferedPayloadsReplayedOnce(t: Table, event: string, payloads: seq<JsValue>, fn: Handler, fn2: Handler)
    requires Lookup(t, event).fns == []
    ensures var s := TriggerAll(t, event, payloads, true);
            var first := Register(s.table, event, fn);
            var second := Register(first.table, event, fn2);
            && s.calls == []
            && first.calls == Replay(fn, Lookup(t, event).queue + payloads)
            && Lookup(first.table, event).queue == []
            && second.calls == []
  {
    BufferAccumulates(t, event, payloads);
  }

  /** Without handlers, successive buffered triggers append to the queue and call nobody. */
  lemma {:induction false} BufferAccumulates(t: Table, event: string, payloads: seq<JsValue>)
    requires Lookup(t, event).fns == []
    ensures var s := TriggerAll(t, event, payloads, true);
            s.calls == [] && Lookup(s.table, event) == Entry([], Lookup(t, event).queue + payloads)
  {
    if payloads != [] {
      var init := payloads[..|payloads| - 1];
      BufferAccumulates(t, event, init);
      assert Lookup(t, event).queue + init + [payloads[|payloads| - 1]] == Lookup(t, event).queue + payloads;
    }
  }

  /**
   * While an event has at least one handler nothing is buffered: a trigger
   * with buffering requested still only calls the handlers.
   */
  lemma NoBufferingWithHandlers(t: Table, event: string, data: JsValue, fn: Handler)
    ensures var r := Register(t, event, fn);
            Trigger(r.table, event, data, true) == Step(r.table, Deliver(Lookup(r.table, event).fns, data))
  {
  }

  /**
   * The defect of the code as written: a payload buffered on an event that
   * never had a handler is lost; the corrected `Trigger` hands it to the
   * first handler.
   */
  lemma EarlyPayloadLostAsWritten(t: Table, event: string, data: JsValue, fn: Handler)
    requires event !in t
    ensures Register(TriggerAsWritten(t, event, data, true).table, event, fn).calls == []
    ensures Register(Trigger(t, event, data, true).table, event, fn).calls == [Call(fn, data)]
  {
  }

  /**
   * `_off` undoes `_on` for a handler the event did not have: the handler
   * list is as before, and the buffer is what `_on` left (emptied by the
   * replay when the list was empty, untouched otherwise).
   */
  lemma OffUndoesOn(t: Table, event: string, fn: Handler)
    requires fn !in Lookup(t, event).fns
    ensures var on := Register(t, event, fn).table;
            && Lookup(Unregister(on, event, fn), event).fns == Lookup(t, event).fns
            && Lookup(Unregister(on, event, fn), event).queue == Lookup(on, event).queue
            && forall e :: e != event ==> Lookup(Unregister(on, event, fn), e) == Lookup(t, e)
  {
    RemoveJustAppended(Lookup(t, event).fns, fn);
  }

  /** The listener's handler lists: one list of handlers per event, no buffer. */
  type Listeners = map<string, seq<Handler>>

  /** `this.eventHandlers[event] || []` on a listener. */
  function HandlersOf(t: Listeners, event: string): seq<Handler>
  {
    if event in t then t[event] else []
  }
}
