# tx_sentinel, modelled in Dafny

`tx_sentinel` (daemon/txrad/tx_sentinel.cpp) watches a Bitcoin peer-to-peer
network for transaction hashes. `start` configures libbitcoin's protocol,
subscribes to newly established channels and starts connecting. Each new
channel gets a subscription to its `inv` announcements. Each announcement's
transaction items are handed, one by one and in order, to a Python callable.
Every subscription is one-shot. The connection and inventory handlers re-issue
their own only on success; the start completion issues nothing.

The model is one sequential state machine. Each asynchronous callback is a
method of the class `Sentinel.TxSentinel` that handles one event to
completion:

- `Inventory`: announcements and the pure per-item classification
  (transaction → deliver, block → nothing, anything else → warning).
- `Logging`: log levels, log records and the pure formatter `log_to_file`.
- `Bridge`: the Python side. The GIL is a guard counter, the calls into
  Python are an append-only sequence, and printed Python errors are a count
  (`ensure_gil`, `pyfunction::operator()`, `notify_transaction`).
- `Network`: error codes and channel identities.
- `Subscriptions`: the one-shot registrations outstanding with the networking
  layer (`Pending`), how each handler consumes and re-issues them (`Next`),
  and lemmas about whole runs of events.
- `Sentinel`: the class with `Start`, `Stop` and the three handlers. Each
  handler is proved to move its ghost `pending` exactly as `Next` does, and
  its Python calls and log records are proved equal to functions of the
  announcement.

Three details of the code matter for what is proved:

- `connection_started` returns on error without re-subscribing to new
  channels (lines 154-158). So one failed connection event ends channel
  acceptance for good (`Subscriptions.ConnectionFailureIsFinal`).
- `start` checks no lifecycle state. A second `start` is not rejected; it
  registers one more channel subscription and one more start completion.
- On line 191, `else if (ivec.type == block);` ends in an empty statement.
  The `else` on line 193 still belongs to that `if`. So blocks do nothing
  and only other item types are warned about, which is what the model does.

External effects become state or parameters:

- The networking layer's `subscribe_channel`, `subscribe_inventory`, `start`
  and `set_max_outbound` are effects on the ghost field `pending` and on the
  field `maxOutbound`.
- Whether a Python call raises is decided by Python code, so it is a
  parameter: `raises` for one call, and `raises(i)` for item `i` of an
  announcement.
- An event is handled only while the pool is not stopped, and only for a
  registration that is outstanding (`Subscriptions.Enabled`).

## Model

| member | source | states |
|---|---|---|
| `Inventory.Classify` | daemon/txrad/tx_sentinel.cpp:187-194 | an item is delivered iff it is a transaction, and then with its own hash; ignored iff it is a block; warned about iff it is of any other type |
| `Inventory.TxHashes` | daemon/txrad/tx_sentinel.cpp:185-190 | an announcement yields at most one delivery per item |
| `Inventory.TxPositions` | daemon/txrad/tx_sentinel.cpp:185-190 | the positions of the transaction items, strictly increasing, and containing every transaction item's position |
| `Inventory.TxHashesInOrder` | daemon/txrad/tx_sentinel.cpp:185-190 | one delivery per transaction item, and the k-th delivery carries the hash of the k-th transaction item (announcement order) |
| `Inventory.KindsPartition` | daemon/txrad/tx_sentinel.cpp:185-195 | deliveries + block items + warnings = number of items (T + B + U = N) |
| `Inventory.EffectsOfConcatenation` | daemon/txrad/tx_sentinel.cpp:185-195 | items are handled independently: the deliveries, warnings and blocks of a concatenation are those of its parts, in order |
| `Inventory.MixedAnnouncement` | daemon/txrad/tx_sentinel.cpp:185-195 | [tx h1, block h2, tx h3, type 0xFF h4] delivers h1 then h3, warns once, and has one block |
| `Logging.LevelRepr` | daemon/txrad/tx_sentinel.cpp:87 | a level's name is non-empty and contains neither a space nor a colon |
| `Logging.LogToFile` | daemon/txrad/tx_sentinel.cpp:82-91 | nothing is written iff the body is empty; otherwise the line is the level's name, then " [" + domain + "]" only if the domain is non-empty, then ": ", the body and a newline, with its length fixed by those parts |
| `Logging.LineBodyRoundTrip` | daemon/txrad/tx_sentinel.cpp:85-90 | the body can be read back out of the written line |
| `Logging.LogToFileInjective` | daemon/txrad/tx_sentinel.cpp:85-90 | two records of the same level and domain write the same line only if their bodies are equal |
| `Bridge.HashString` | daemon/txrad/tx_sentinel.cpp:172 | the string has 32 characters, and each has the code of the corresponding digest byte |
| `Bridge.StringDigest` | daemon/txrad/tx_sentinel.cpp:172 | a string stands for a digest iff it has 32 characters, all below 256 |
| `Bridge.HashStringRoundTrip` | daemon/txrad/tx_sentinel.cpp:172 | the string handed to Python (a Python 2 byte `str`) reads back as exactly the digest |
| `Bridge.StringDigestRoundTrip` | daemon/txrad/tx_sentinel.cpp:172 | a string that reads back as a digest is that digest's string |
| `Bridge.Interpreter.EnsureGil` | daemon/txrad/tx_sentinel.cpp:12-15 | the guard count rises by one; nothing else changes |
| `Bridge.Interpreter.ReleaseGil` | daemon/txrad/tx_sentinel.cpp:16-19 | the guard count falls by one; nothing else changes |
| `Bridge.Interpreter.Call` | daemon/txrad/tx_sentinel.cpp:38 | the call is appended to the calls made, with whether the GIL was held |
| `Bridge.Interpreter.PrintError` | daemon/txrad/tx_sentinel.cpp:42 | one more printed Python error; nothing else changes |
| `Bridge.Invoke` | daemon/txrad/tx_sentinel.cpp:32-45 | exactly one call, made with the GIL held; the guard count is balanced afterwards whether or not the call raised; a raised error other than `SystemExit` is printed once and goes no further |
| `Bridge.NotifyTransaction` | daemon/txrad/tx_sentinel.cpp:169-175 | exactly one call of the handler, with the digest's 32-byte string, under the GIL, with the guard count balanced |
| `Subscriptions.SubscribeChannel` | daemon/txrad/tx_sentinel.cpp:130-131 | one more channel subscription; inventory subscriptions and start completions unchanged |
| `Subscriptions.SubscribeInventory` | daemon/txrad/tx_sentinel.cpp:161-163 | one more inventory subscription on that channel, no change on any other channel |
| `Subscriptions.RegisterStart` | daemon/txrad/tx_sentinel.cpp:133-143 | one more start completion, holding the start handler |
| `Subscriptions.Next` | daemon/txrad/tx_sentinel.cpp:151-200 | after a handler runs, the channel subscriptions drop by one only after a failed connection event; a channel's inventory subscriptions rise by one only after its successful connection and drop by one only after an inventory error on it; no other channel changes; a start completion uses up its own registration |
| `Subscriptions.InventoryCountAfterRun` | daemon/txrad/tx_sentinel.cpp:151-200 | over any run of events, a channel's inventory subscriptions change by its successful connections minus its inventory errors |
| `Subscriptions.ChannelCountAfterRun` | daemon/txrad/tx_sentinel.cpp:151-167 | over any run of events, the channel subscriptions fall by exactly the number of failed connection events |
| `Subscriptions.StartsAfterRun` | daemon/txrad/tx_sentinel.cpp:133-143 | every start-handler call made in a run uses up one registered start completion |
| `Subscriptions.UnarmedChannelStaysUnobserved` | daemon/txrad/tx_sentinel.cpp:180-184 | a channel without an inventory subscription never has an announcement handled again unless it is connected anew |
| `Subscriptions.InventoryErrorIsFinal` | daemon/txrad/tx_sentinel.cpp:180-184 | after an inventory error on a channel with one subscription, no later announcement from it is handled unless it is connected anew |
| `Subscriptions.AcceptorHalted` | daemon/txrad/tx_sentinel.cpp:154-158 | without a channel subscription, no connection event is ever handled again |
| `Subscriptions.ConnectionFailureIsFinal` | daemon/txrad/tx_sentinel.cpp:154-158 | after a failed connection event with one channel subscription outstanding, no later connection event is handled |
| `Subscriptions.ObservedWhileHealthy` | daemon/txrad/tx_sentinel.cpp:196-199 | a subscribed channel that reports no inventory error can still have its next announcement handled after any run of events |
| `Subscriptions.StartHandlerAtMostOnce` | daemon/txrad/tx_sentinel.cpp:130-143 | after one start on a fresh sentinel, only that start handler is ever called by a start completion, and at most once |
| `Sentinel.StartResult` | daemon/txrad/tx_sentinel.cpp:136-141 | the start handler gets `None` iff there is no error, and the error's message otherwise |
| `Sentinel.RaisedAtMostOncePerDelivery` | daemon/txrad/tx_sentinel.cpp:35-44 | an announcement prints at most one Python error per delivery |
| `Sentinel.TxSentinel.constructor` | daemon/txrad/tx_sentinel.cpp:94-98 | a new sentinel has no registrations, no log records, no outbound cap set and `None` as its transaction handler |
| `Sentinel.TxSentinel.Start` | daemon/txrad/tx_sentinel.cpp:100-144 | the transaction handler is `handle_newtx`, the outbound cap is `number_hosts`, exactly one more channel subscription and one start completion holding `handle_start`; no log record and no Python call |
| `Sentinel.TxSentinel.Stop` | daemon/txrad/tx_sentinel.cpp:145-149 | the pool is stopped, so no further event is handled; nothing else changes |
| `Sentinel.TxSentinel.NetworkStartedHandler` | daemon/txrad/tx_sentinel.cpp:133-142 | exactly one call of the start handler, with `None` or the error's message, under a balanced GIL guard; its registration is used up; no log record |
| `Sentinel.TxSentinel.ConnectionStartedHandler` | daemon/txrad/tx_sentinel.cpp:151-167 | on error, one warning and no new subscription; on success, one info record, one inventory subscription on that channel and the channel subscription re-issued once |
| `Sentinel.TxSentinel.HandleItem` | daemon/txrad/tx_sentinel.cpp:187-194 | a transaction item gives one observer call with its hash string and at most one printed error; a block item gives nothing; any other item gives one warning |
| `Sentinel.TxSentinel.HandleItems` | daemon/txrad/tx_sentinel.cpp:185-195 | the observer calls are those for the transaction items' hashes in announcement order, the warnings one per unknown item, the printed errors one per raising call |
| `Sentinel.TxSentinel.InventoryReceivedHandler` | daemon/txrad/tx_sentinel.cpp:177-200 | on error, one error record, no call, no warning, and the channel is left without its subscription; otherwise one observer call per transaction item in announcement order with that item's hash string, one warning per unknown item, none for blocks, one printed error per raising call, and exactly one new subscription on that channel only |

## Left out

- Sentinel.TxSentinel.InventoryReceivedHandler: states the net change in subscriptions. It does not state that the re-subscription is issued after the last item; the method body issues it there.
- The networking layer (thread pool, hosts, handshake, network, protocol) is not part of this model. Its subscriptions and the start call appear only as effects on `pending`. Error codes and channel identities are opaque values.
- Concurrency: the pool runs events on several threads, and `stop` joins them and waits for work in flight. In this sequential model, events are handled one at a time to completion, and `stop` just marks the pool stopped.
- The number of worker threads is recorded, but it does not affect which events are handled.
- Sentinel.TxSentinel.Stop: assumes that libbitcoin's thread pool, once stopped, stays stopped even if `start` spawns threads again. The thread pool and asio's `io_service` are not in these sources.
- Reference counts of Python objects are not modelled. Copying and destroying `python::object` values changes reference counts outside the `ensure_gil` scope: `handle_newtx_` passed by value and copied into `pyfunction` (lines 170-175, 189), `handle_start` copied into `pyfunction` (line 136), `python::object()` built for `None` (line 141), and the by-value arguments and `pyfunction` temporaries destroyed after the guard is released. The model records only the calls into Python, and those are made with the GIL held.
- The logger hookup (`set_output_function`, opening `debug.txrad.log` and `error.txrad.log`, lines 103-122) is left out. `log` holds the records as the code hands them to the logger. With `SUPRESS_OUTPUT` defined, every record goes to `log_nothing`.
- libbitcoin's `level_repr` and the default domain of `bc::log_*()` are not in these sources. The model assumes the upper-case level names and an empty domain.
- Bridge.Interpreter.PrintError: a `SystemExit` raised by the callable is not modelled. For that exception `PyErr_Print` ends the whole process instead of printing and returning, so `Bridge.Invoke` would not return and no handler that calls Python would go on (`inventory_received` would issue no re-subscription). The model covers every other exception, which is printed once and swallowed.
- The Python runtime is abstracted. `PyGILState_Ensure`/`PyGILState_Release` are a counter. `PyErr_Print` is a count. `python::handle_exception` is taken to leave nothing pending. Whether a call raises is a parameter. The bridge is taken to run under Python 2, as daemon/txrad/test.py does, so the hash reaches Python as a byte `str`; under Python 3 Boost.Python would decode it as UTF-8 and most digests would fail to convert.
- libbitcoin's inventory type enumeration is not in these sources. Every tag other than transaction and block is modelled as `Other` with an opaque code.
- `tx_sentinel_wrapper` and the Boost.Python module registration (lines 202-232) are binding glue.
- daemon/rest_handlers.py is HTTP plumbing around external handlers, and daemon/txrad/test.py is a manual driver. Neither is part of this model.
