# bunyan-logstash-tcp, modelled in Dafny

A model of the bunyan stream that forwards log records to a logstash
collector over TCP or TLS (`createStream`, `LogstashStream`). The model
covers the three parts with real rules. The first is the record-to-wire
transformation in `write`. The second is the connection and retry state
machine: `connect` and the socket's `error`, `timeout`, `connect` and
`close` handlers. The third is buffering and delivery: `send`, `sendLog`,
`flush` and `announce`. The repository has two copies of the stream,
`src/lib/logstash.js` and the older ES5 copy `lib/logstash.js`. Both are
modelled. Where they differ (the level lookup and how `@timestamp` is
obtained), each copy has its own function.

Modules, leaf first:

- `Wrappers` (wrappers.dfy): `Option`, `Result`, `Outcome`.
- `Decimal` (decimal.dfy): the decimal text of an integer and its inverse.
  The ES5 level lookup converts the level to a property name first.
- `JsValues` (js_values.dfy): JavaScript values with ToBoolean, `||` and
  String().
- `CircularBuffer` (circular_buffer.dfy): the CBuffer the queue lives in.
- `Settings` (settings.dfy): the constructor's options and their defaults.
- `Transform` (transform.dfy): `write` up to the call of `send`.
- `Machine` (machine.dfy): the stream's state, with one function per event
  and operation.
- `Properties` (properties.dfy): properties spanning several events.
- `Stream` (stream.dfy): the class `LogstashStream`. Its fields are the
  stream's connection state (`connected`, `connecting`, `retries`,
  `silent`, `socket`, `log_queue`). They also include the model's own
  bookkeeping: sockets `created` and `destroyed`, `pendingReconnects`,
  `written` and `emitted`. Each socket handler, `connect`, `announce`,
  `flush` and `send` is proved to perform its `Machine` transition. The
  connect callback `OnHandshake` performs `Machine.Handshake`. `Write` and
  `WriteEs5` are proved to perform `WireMessage` or `WireMessageEs5`, then
  `Machine.Send`. `DrainQueue` is the pop loop of `flush`, and it and
  `SendLog` state their effect on the fields they change.

Modelling assumptions:

- CBuffer is an external library and its code is not part of this model.
  Its behaviour is assumed in `CircularBuffer`, following the Array
  methods it mirrors. `push` appends and, when full, overwrites the oldest
  entry. `pop` removes the most recently pushed entry. `empty` clears.
- `new Date(t).toISOString()` is `Transform.Timestamp`. An undefined `t`
  always gives an Invalid Date, whose `toISOString` throws a RangeError.
  A null `t` is the epoch. Every other value is converted and formatted by
  the parameter `isoOf`, which yields nothing when the date is invalid.
- `JSON.stringify(..., bunyan.safeCycles())` is the parameter `stringify`.
- The socket is its serial number (present or null). What it is given to
  write is the sequence `written`. Emitted events are the sequence
  `emitted`. A scheduled reconnect timer is a pending counter, and
  `FireReconnect` is the timer firing.

Behaviour as written that is easy to misread. The model follows the code
in each case:

- The doc comment of `flush` (src/lib/logstash.js:207-212) promises that
  every message not yet sent is sent. It says nothing about order. The
  loop pops from the buffer, so with CBuffer's `pop` the queued messages
  go out newest first, not in write order. The model proves that
  each queued message is written exactly once and that the queue ends
  empty (`Properties.FlushSendsEachOnce`). The order is only a consequence
  of the CBuffer assumption (`Properties.DrainedIsNewestFirst`).
- `send` never reads `silent`. Its doc comment (src/lib/logstash.js:236-241)
  promises only to queue while disconnected, and `silent`, set at
  src/lib/logstash.js:183, is read nowhere. After the retry budget runs out, the queue
  is replaced by an empty one, and new messages are still buffered rather
  than dropped (`Properties.SilentStillBuffers`).
- In the ES5 copy, `connect` declares a `tryReconnect` flag
  (lib/logstash.js:107). The error handler clears it when the cause does not
  match `ECONNREFUSED_REGEXP` (lib/logstash.js:13, :143-145), but nothing
  reads it. The retry decision ignores the error cause
  (`Properties.ErrorCauseIgnored`).
- In the ES5 copy, `hasOwnProperty` converts the level to a property name.
  The string `"10"` or the array `[60]` is named there too, while the src
  copy's `Map.has` names only the numbers
  (`Transform.LevelCopiesDifferOnText`). On numbers the copies agree
  (`Transform.LevelCopiesAgreeOnNumbers`).

## Model

| member | source | states |
|---|---|---|
| `Transform.KnownLevels` | src/lib/logstash.js:11-18 | levels 10, 20, 30, 40, 50 and 60 become trace, debug, info, warn, error and fatal; 51 and the name "debug" pass through unchanged |
| `Transform.LevelName` | src/lib/logstash.js:94-98 | the level is replaced exactly when it is one of the table's numbers, and then by that number's name; any other value is returned unchanged |
| `Transform.LevelNameEs5` | lib/logstash.js:75-79 | the level is replaced exactly when its property-name text is one of "10".."60", and then by the table's name for it; otherwise it is returned unchanged |
| `Transform.LevelKeysAreTexts` | lib/logstash.js:15-22 | the ES5 table's keys are exactly the decimal texts of the src table's numbers, each with the same name |
| `Transform.LevelCopiesAgreeOnNumbers` | lib/logstash.js:15-22 | for every integer level, the ES5 lookup and the src lookup give the same result |
| `Transform.LevelCopiesDifferOnText` | lib/logstash.js:77 | the ES5 lookup names the string "10" and the array [60]; the src lookup passes both through |
| `Transform.Base` | src/lib/logstash.js:100-110 | the base object has exactly `@timestamp`, `message`, `tags`, `source` and `level`, plus `type` exactly when the configured type is a string; `source` is server "/" application |
| `Transform.Assemble` | src/lib/logstash.js:112-122 | the wire keys are the base keys, plus the record's keys other than time/msg/v/level, plus `pid`; `pid` is the configured pid; record fields override base fields; `level` is the resolved level; `time`, `msg` and `v` never appear |
| `Transform.WireMessage` | src/lib/logstash.js:85-122 | `write` fails (RangeError) exactly when `new Date(rec.time)` has no ISO text; otherwise it yields the assembled object with the src level lookup |
| `Transform.Timestamp` | src/lib/logstash.js:101 | an undefined time never has a timestamp; null is the epoch; any other value is converted and formatted by `isoOf` |
| `Transform.MissingTimeFails` | src/lib/logstash.js:101 | in the src copy, a record whose `time` is missing or undefined always fails with a RangeError |
| `Transform.WireMessageEs5` | lib/logstash.js:81-103 | a `time` that is not a Date makes `write` throw a TypeError; for a Date it fails exactly when the ISO text fails; otherwise it yields the assembled object with the ES5 level lookup |
| `Transform.PidIsConfigured` | src/lib/logstash.js:120-122 | in both copies, a successful wire object carries the configured pid, whatever pid the record had |
| `Transform.TypeOnlyWhenString` | src/lib/logstash.js:108-110 | for a record without `type`, the wire object has `type` exactly when the configured type is a string, and then it is that string |
| `Transform.RecordFieldsOverride` | src/lib/logstash.js:122 | record `@timestamp`, `message`, `tags` and `source` win over the computed ones; absent ones keep the computed values; `level` is always the resolved level |
| `Settings.Configure` | src/lib/logstash.js:45-73 | level, server, application, host, port, ssl_enable, tags, pid and retry_interval are the option when truthy, else the default (info, the hostname, the process title, 127.0.0.1, 9999, false, [bunyan], the process pid, 100); `type` is taken as given; the retry budget is the option only when it is a number, else 4; the capacity is the truthy buffer size, else 10, and positive |
| `Settings.Defaults` | src/lib/logstash.js:46-73 | with no options: level info, host 127.0.0.1, port 9999, tags [bunyan], no type, no TLS, buffer 10, budget 4, interval 100, and the process's hostname, title and pid |
| `Settings.RetryBudgetOption` | src/lib/logstash.js:72 | a numeric `max_connect_retries`, of any sign, is kept; a string is ignored in favour of 4 |
| `CircularBuffer.Create` | src/lib/logstash.js:67 | a new buffer is empty and has the requested capacity (assumption about CBuffer) |
| `CircularBuffer.Push` | src/lib/logstash.js:247-249 | a push keeps the newest entries that fit: the old entries plus the new one, oldest dropped when full (assumption about CBuffer) |
| `CircularBuffer.Pop` | src/lib/logstash.js:216-219 | pop returns the most recently pushed entry and removes it, or nothing on an empty buffer (assumption about CBuffer) |
| `CircularBuffer.PushAllKeepsNewest` | src/lib/logstash.js:246-249 | after any series of pushes, the buffer holds exactly the newest `capacity` entries, in push order |
| `CircularBuffer.PopReturnsLastPushed` | src/lib/logstash.js:216 | the entry a pop returns is the one pushed last (assumption about CBuffer) |
| `CircularBuffer.Clear` | src/lib/logstash.js:222 | `empty()` leaves no entries and keeps the capacity (assumption about CBuffer) |
| `Machine.Initial` | src/lib/logstash.js:66-75 | a fresh stream has `retries` 0 (from -1 and one `connect`), is connecting, not connected, not silent, with an empty queue of the configured capacity and one socket |
| `Machine.Connect` | src/lib/logstash.js:130-150 | `connect` increments `retries`, sets `connecting` and installs a new, never-destroyed socket; everything else, pending timers included, is unchanged |
| `Machine.OnError` | src/lib/logstash.js:152-158 | the error handler clears `connecting` and `connected`, destroys and drops the socket, and emits `error` with the cause; nothing else changes |
| `Machine.OnTimeout` | src/lib/logstash.js:160-165 | the timeout handler destroys the socket exactly when its readyState is not open, and emits `timeout` in both cases |
| `Machine.OnConnectEvent` | src/lib/logstash.js:167-170 | the connect handler resets `retries` to 0 and emits `connect`; nothing else changes |
| `Machine.OnClose` | src/lib/logstash.js:172-186 | close always clears `connected` and emits `close`; with budget left it schedules one reconnect if not connecting, none if connecting, and keeps queue and `silent`; otherwise it resets the queue to an empty one of the configured capacity and sets `silent` |
| `Machine.FireReconnect` | src/lib/logstash.js:177-179 | a fired timer consumes one pending reconnect and calls `connect` |
| `Machine.Handshake` | src/lib/logstash.js:188-193 | the connect callback leaves the stream connected and not connecting, with the queue flushed to the socket and empty, its capacity kept; nothing else changes |
| `Machine.Announce` | src/lib/logstash.js:201-205 | `announce` leaves the stream connected with an empty queue of the same capacity, the queued messages drained to the socket, and nothing else changed |
| `Machine.Flush` | src/lib/logstash.js:213-223 | `flush` empties the queue and appends its drained writes to the socket; nothing else changes |
| `Machine.Drained` | src/lib/logstash.js:216-220 | the pop loop writes exactly one line per queued entry; which entry each line is, is proved in `Properties.DrainedIsNewestFirst` |
| `Machine.SendLog` | src/lib/logstash.js:231-233 | `sendLog` appends exactly the message plus a newline to the socket's writes; nothing else changes |
| `Machine.Send` | src/lib/logstash.js:242-253 | while disconnected, `send` pushes one `{message}` entry and writes nothing; while connected, it writes message plus newline and leaves the queue alone; the invariant is kept |
| `Properties.FlushSendsEachOnce` | src/lib/logstash.js:213-223 | after a flush the queue is empty, earlier writes are untouched, and the new writes are the queued messages, each exactly once, each newline-terminated |
| `Properties.DrainedIsNewestFirst` | src/lib/logstash.js:216-220 | under the CBuffer assumption, the k-th flush write is the k-th newest queued message |
| `Properties.DrainedWritesEachOnce` | src/lib/logstash.js:216-220 | the flush writes, as a multiset, are exactly the framed queued messages |
| `Properties.SendsWhileDisconnected` | src/lib/logstash.js:242-249 | sends while disconnected write nothing, change nothing but the queue, and leave exactly the newest `capacity` messages queued in send order |
| `Properties.CapacityTwoScenario` | src/lib/logstash.js:201-223 | with a buffer of two, sending A, B and C while disconnected and then connecting writes C then B, and empties the queue |
| `Properties.SilentStillBuffers` | src/lib/logstash.js:242-253 | a silent, disconnected stream still queues a sent message and writes nothing |
| `Properties.ErrorCauseIgnored` | lib/logstash.js:137-147 | the error handler, and the close after it, reach the same state whatever the cause, except for the emitted `error` |
| `Properties.Failing` | src/lib/logstash.js:172-186 | after n failed attempts within the budget, each with its reconnect fired, `retries` is n, the stream is connecting, not silent, with no pending timer and the initial empty queue |
| `Properties.FailureWithinBudgetRetries` | src/lib/logstash.js:175-180 | from any state within the budget, or with an unlimited one, an error then a close schedules exactly one more reconnect, keeps the queue, `silent` and `retries`, and emits `error` then `close` |
| `Properties.FailureBeyondBudgetSilences` | src/lib/logstash.js:181-184 | with budget m >= 0, the failure that follows m failed retries schedules no reconnect, resets the queue to an empty one, sets `silent` and ends with `close` |
| `Stream.LogstashStream.constructor` | src/lib/logstash.js:41-76 | the object's settings are the configured ones and its state is the fresh stream's |
| `Stream.LogstashStream.Connect` | src/lib/logstash.js:130-150 | the fields change as `Machine.Connect` says |
| `Stream.LogstashStream.OnError` | src/lib/logstash.js:152-158 | the fields change as `Machine.OnError` says |
| `Stream.LogstashStream.OnTimeout` | src/lib/logstash.js:160-165 | the fields change as `Machine.OnTimeout` says |
| `Stream.LogstashStream.OnConnectEvent` | src/lib/logstash.js:167-170 | the fields change as `Machine.OnConnectEvent` says |
| `Stream.LogstashStream.OnClose` | src/lib/logstash.js:172-186 | the fields change as `Machine.OnClose` says |
| `Stream.LogstashStream.FireReconnect` | src/lib/logstash.js:177-179 | the fields change as `Machine.FireReconnect` says |
| `Stream.LogstashStream.OnHandshake` | src/lib/logstash.js:188-193 | the fields change as `Machine.Handshake` says |
| `Stream.LogstashStream.Announce` | src/lib/logstash.js:201-205 | the fields change as `Machine.Announce` says |
| `Stream.LogstashStream.Flush` | src/lib/logstash.js:213-223 | the fields change as `Machine.Flush` says: the drained writes appended and the queue empty |
| `Stream.LogstashStream.DrainQueue` | src/lib/logstash.js:216-220 | the pop loop leaves the queue empty with its capacity, and appends every queued message to the writes, newest first |
| `Stream.LogstashStream.SendLog` | src/lib/logstash.js:231-233 | only the socket's writes change, by the message plus a newline |
| `Stream.LogstashStream.Send` | src/lib/logstash.js:242-253 | the fields change as `Machine.Send` says |
| `Stream.LogstashStream.Write` | src/lib/logstash.js:85-123 | a failing timestamp returns the error and changes nothing; otherwise the serialised wire object is sent |
| `Stream.LogstashStream.WriteEs5` | lib/logstash.js:66-104 | the same, with the ES5 wire object (TypeError when `time` is not a Date) |

The socket handlers, `connect`, `announce`, `flush`, `sendLog` and `send`
in lib/logstash.js:106-218 follow the src copy, with two differences. The
first is the unread `tryReconnect` flag of `connect` and its error handler
(lib/logstash.js:107, :143-145). The second is that the ES5 error handler
reads `err.message` (lib/logstash.js:143), which throws for a null or
undefined cause before `error` is emitted (see `Machine.OnError` under
"## Left out"). The rows above cite the src copy.

## Left out

- The transport (`net.Socket`, `tls.connect`, `socket.connect`, `setEncoding`, `unref`, what `destroy` does to a socket). A socket is a serial number, and what reaches the collector is what was handed to `socket.write`. The TLS and plain paths are not told apart. They differ in which library makes the socket, in the TLS callback's `setEncoding` call, and in the callback firing after the TLS handshake (`secureConnect`) rather than on TCP `connect`.
- Reading the TLS key, certificate and CA files. `fs.readFileSync` can throw out of `connect` itself. This is file I/O.
- Timer delays: `retry_interval` is kept as a setting but no time passes in the model. A scheduled timer is a pending count until `FireReconnect`.
- EventEmitter: only the names of emitted events, and the cause of `error`, are recorded. Node throws when `error` is emitted with no listener, and that is not modelled.
- `JSON.parse` of a string entry, and the JSON text that `JSON.stringify` produces: both are library calls. The serialiser is a parameter, and the wire object is a map, so key order is not modelled.
- Date conversion of values other than undefined and null, and ISO-8601 formatting: a parameter that may fail.
- Non-integral numbers (fractions, NaN, Infinity): `Value` numbers are integers. Integers beyond 2^53 are exact in the model but not in JavaScript. From 10^21 on, JavaScript prints them in exponent form ("1e+21"), while the model prints every digit. This changes only the `source` text and the ES5 level key.
- Objects with their own `toString` or `valueOf`: a `Value` holds no functions, so such a field is never callable. JavaScript then throws a TypeError wherever the object is converted to a string or a number. The model prints it as "[object Object]" instead.
- The constant fields `name` ('bunyan') and `client` (null): nothing reads them.
- `Settings.Configure`: requires `cbuffer_size` to be falsy or a positive number, because CBuffer's handling of other sizes is not shown. It also requires the server and appName values to have a known printed text: not a Date object, and not an array holding a Date (at any depth), because a Date's text depends on the time zone. A server or appName object with its own non-callable `toString` is accepted, although every `write` would then throw a TypeError at src/lib/logstash.js:104.
- `Stream.LogstashStream.OnError`: requires a current socket. On a null socket the handler would throw a TypeError after clearing `connecting` and `connected`. The transport fires `error` only on a live socket, which the handler then drops.
- `Stream.LogstashStream.OnTimeout`: requires a current socket. The handler reads `readyState` from it and would throw on null.
- `Stream.LogstashStream.OnHandshake`: requires a current socket. The callback fires only for the socket that completed its connection. On null, the TLS callback would throw at `setEncoding` (src/lib/logstash.js:143) even with an empty queue, and a flush with queued messages would throw in `sendLog`.
- Events from a socket that is no longer current are not told apart from events of the current one. The handlers act on the stream's fields either way.
- `Transform.LevelNameEs5`: a level object with its own non-callable `toString`/`valueOf` makes `hasOwnProperty` throw a TypeError at lib/logstash.js:77. The model returns that level unchanged.
- `Transform.WireMessage`: a `time` object with its own non-callable `toString`/`valueOf` makes `new Date` throw a TypeError at src/lib/logstash.js:101. Such a value goes to `isoOf`, so the model can report only a RangeError.
- `Machine.OnError`: in the ES5 copy, a null or undefined cause throws at lib/logstash.js:143, after the flags are cleared and the socket is dropped but before `error` is emitted. The model always emits. The transport always passes an Error.
