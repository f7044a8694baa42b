/**
 * The stream object: the fields that its socket handlers, `connect`,
 * `announce`, `flush`, `sendLog`, `send` and `write` update in place. Every
 * method is proved to perform the transition of the same name in Machine,
 * so the properties proved there hold of the object.
 */
module Stream {
  import opened Wrappers
  import opened JsValues
  import opened Settings
  import opened Transform
  import Machine
  import CircularBuffer

  class LogstashStream {
    const config: Config

    var connected: bool
    var connecting: bool
    var retries: int
    var silent: bool
    /** The current socket, by serial number, or null. */
    var socket: Option<nat>
    /** How many sockets `connect` has created. */
    var created: nat
    /** The sockets whose `destroy` was called. */
    var destroyed: set<nat>
    var logQueue: CircularBuffer.CBuffer
    /** Reconnect timers scheduled by the close handler and not yet fired. */
    var pendingReconnects: nat
    /** Every string handed to `socket.write`, in order. */
    var written: seq<string>
    /** Every notification emitted, in order. */
    var emitted: seq<Machine.Notification>

    /** The object's fields as a Machine state. */
    function State(): Machine.State
      reads this
    {
      Machine.State(connected, connecting, retries, silent, socket, created, destroyed,
                    logQueue, pendingReconnects, written, emitted)
    }

    ghost predicate Valid()
      reads this
    {
      config.capacity > 0 && Machine.Inv(State()) && logQueue.capacity == config.capacity
    }

    /**
     * `createStream(options)`: the defaults, an empty queue of `cbuffer_size`
     * entries, `retries` at -1, and then the first `connect()`.
     */
    constructor (options: Options, env: Environment)
      requires Supported(options, env)
      ensures config == Configure(options, env)
      ensures Valid() && State() == Machine.Initial(config)
    {
      var c := Configure(options, env);
      config := c;
      logQueue := CircularBuffer.Create(c.capacity);
      connected := false;
      connecting := false;
      socket := None;
      retries := -1;
      silent := false;
      created := 0;
      destroyed := {};
      pendingReconnects := 0;
      written := [];
      emitted := [];
      new;
      Connect();
    }

    /** `connect()`: counts the attempt, marks it in flight and opens a new socket. */
    method Connect()
      requires Valid()
      modifies this
      ensures Valid() && State() == Machine.Connect(old(State()))
    {
      retries := retries + 1;
      connecting := true;
      socket := Some(created);
      created := created + 1;
    }

    /** The socket's `error` handler. */
    method OnError(cause: Value)
      requires Valid() && socket.Some?
      modifies this
      ensures Valid() && State() == Machine.OnError(old(State()), cause)
    {
      connecting := false;
      connected := false;
      destroyed := destroyed + {socket.value};
      socket := None;
      emitted := emitted + [Machine.ErrorNote(cause)];
    }

    /** The socket's `timeout` handler; `readyStateOpen` is whether its readyState is "open". */
    method OnTimeout(readyStateOpen: bool)
      requires Valid() && socket.Some?
      modifies this
      ensures Valid() && State() == Machine.OnTimeout(old(State()), readyStateOpen)
    {
      if !readyStateOpen {
        destroyed := destroyed + {socket.value};
      }
      emitted := emitted + [Machine.TimeoutNote];
    }

    /** The socket's `connect` handler. */
    method OnConnectEvent()
      requires Valid()
      modifies this
      ensures Valid() && State() == Machine.OnConnectEvent(old(State()))
    {
      retries := 0;
      emitted := emitted + [Machine.ConnectNote];
    }

    /** The socket's `close` handler. */
    method OnClose()
      requires Valid()
      modifies this
      ensures Valid() && State() == Machine.OnClose(config, old(State()))
    {
      connected := false;
      if config.maxConnectRetries < 0 || retries < config.maxConnectRetries {
        if !connecting {
          pendingReconnects := pendingReconnects + 1;
        }
      } else {
        logQueue := CircularBuffer.Create(config.capacity);
        silent := true;
      }
      emitted := emitted + [Machine.CloseNote];
    }

    /** A reconnect timer scheduled by `close` fires. */
    method FireReconnect()
      requires Valid() && pendingReconnects > 0
      modifies this
      ensures Valid() && State() == Machine.FireReconnect(old(State()))
    {
      pendingReconnects := pendingReconnects - 1;
      Connect();
    }

    /** The callback of `socket.connect` / `tls.connect`. */
    method OnHandshake()
      requires Valid() && socket.Some?
      modifies this
      ensures Valid() && State() == Machine.Handshake(old(State()))
    {
      Announce();
      connecting := false;
    }

    /** `announce()`. */
    method Announce()
      requires Valid() && socket.Some?
      modifies this
      ensures Valid() && State() == Machine.Announce(old(State()))
    {
      connected := true;
      Flush();
    }

    /**
     * `flush()`: pops and writes until the queue yields nothing, then empties
     * the queue.
     */
    method Flush()
      requires Valid() && (socket.Some? || logQueue.items == [])
      modifies this`logQueue, this`written
      ensures Valid() && State() == Machine.Flush(old(State()))
    {
      DrainQueue();
      logQueue := CircularBuffer.Clear(logQueue);
    }

    /** The pop loop of `flush()`: each popped entry is written, newest first. */
    method DrainQueue()
      requires socket.Some? || logQueue.items == []
      modifies this`logQueue, this`written
      ensures logQueue.items == [] && logQueue.capacity == old(logQueue.capacity)
      ensures written == old(written) + Machine.Drained(old(logQueue.items))
    {
      ghost var items := logQueue.items;
      ghost var k := |items|;
      var popped := CircularBuffer.Pop(logQueue);
      var message, queue := popped.0, popped.1;
      while message.Some?
        invariant k <= |items| && queue.capacity == old(logQueue.capacity)
        invariant message.Some? ==> 0 < k && message.value == items[k - 1] && queue.items == items[..k - 1]
        invariant message.None? ==> k == 0 && queue.items == []
        invariant written == old(written) + Machine.Drained(items[k..])
        decreases k
      {
        Machine.DrainedStep(items, k);
        SendLog(message.value.message);
        k := k - 1;
        popped := CircularBuffer.Pop(queue);
        message, queue := popped.0, popped.1;
      }
      assert items[0..] == items;
      logQueue := queue;
    }

    /** `sendLog(message)`: writes the message and a newline to the socket. */
    method SendLog(message: string)
      requires socket.Some?
      modifies this`written
      ensures written == old(written) + [Machine.Frame(message)]
    {
      written := written + [message + "\n"];
    }

    /** `send(message)`: queue it while disconnected, write it while connected. */
    method Send(message: string)
      requires Valid()
      modifies this
      ensures Valid() && State() == Machine.Send(old(State()), message)
    {
      if !connected {
        logQueue := CircularBuffer.Push(logQueue, CircularBuffer.Entry(message));
      } else {
        SendLog(message);
        assert State() == Machine.SendLog(old(State()), message);
      }
    }

    /**
     * `write(entry)` of the src copy: the wire object, serialised by
     * `stringify`, goes to `send`; when the timestamp throws, nothing is
     * sent and the error is returned.
     */
    method Write(entry: map<string, Value>, isoOf: Value -> Option<string>, stringify: map<string, Value> -> string)
      returns (outcome: Outcome<WriteError>)
      requires Valid()
      modifies this
      ensures Valid()
      ensures match WireMessage(config, entry, isoOf)
              case Failure(e) => outcome == Fail(e) && State() == old(State())
              case Success(w) => outcome == Pass && State() == Machine.Send(old(State()), stringify(w))
    {
      var wire := WireMessage(config, entry, isoOf);
      if wire.Failure? {
        return Fail(wire.error);
      }
      Send(stringify(wire.value));
      outcome := Pass;
    }

    /** `write(entry)` of the ES5 copy, which needs `time` to be a Date. */
    method WriteEs5(entry: map<string, Value>, isoOf: Value -> Option<string>, stringify: map<string, Value> -> string)
      returns (outcome: Outcome<WriteError>)
      requires Valid()
      modifies this
      ensures Valid()
      ensures match WireMessageEs5(config, entry, isoOf)
              case Failure(e) => outcome == Fail(e) && State() == old(State())
              case Success(w) => outcome == Pass && State() == Machine.Send(old(State()), stringify(w))
    {
      var wire := WireMessageEs5(config, entry, isoOf);
      if wire.Failure? {
        return Fail(wire.error);
      }
      Send(stringify(wire.value));
      outcome := Pass;
    }
  }
}
