# doasvm-visualizer: the MHA websocket bridge, modelled in Dafny

The `mha_server.py` process bridges browser websocket clients to an openMHA
engine. Each client connection gets a `LoopingWebSocket` handler. When it is
constructed, the handler opens its own `MHAConnection`, looks up the
pooling plug-in with `find_id(pooling_id)` and fixes the pool path that data
requests read. After that, every client message is decoded and classified by
a fixed chain of keys (`command`, `new_pooling_wndlen`, `new_pooling_alpha`,
`new_pooling_type`, `beamformer`, `new_interval`). The command it selects
issues one `set_val` or `get_val` on the engine, or changes the session's
`interval`. The `handle_conn_errors` decorator decides what happens to an
exception that leaves the handler. Before any of this, start-up aborts when
the classification plug-in cannot be found.

Modules:

- `Values` (`values.dfy`): decoded JSON values, Python truthiness, and the `{"data": p}` reply.
- `Text` (`text.dfy`): Python's `in` and `str.replace` on strings, with the lemmas the pool-path proofs use.
- `Engine` (`engine.dfy`): the exception classes, the engine calls and their results, and the decorator's policy, both as intended (`Guard`) and as written (`GuardAsWritten`).
- `Paths` (`paths.dfy`): the fixed variable paths and the derivation of the pool path.
- `Commands` (`commands.dfy`): the `Command` variants, the key chain (`Classify`), a table-driven reference for it (`FirstKey`, `CommandFor`), and decoding of a frame (`Read`).
- `Bridge` (`bridge.dfy`):
  - what one message does, as functions: `Respond` for the undecorated handler, `Handle` for the decorated one;
  - the properties the handler promises, as lemmas;
  - class `Session`, whose methods follow the handler's code and are proved against `Respond` and `Handle`.
- `Startup` (`startup.dfy`): the start-up lookup of the classification plug-in.

The engine is not part of the model. What an engine call returns (a value,
or one of the exceptions) is a parameter `got` of the operation that makes
the call. The calls the session issues and the replies it writes are
recorded in the ghost traces `Session.ops` and `Session.replies`.

Where the code and the design description of the system differ, the model
follows the code:

- Each handler opens its own engine connection in `__init__`. The design describes one connection shared by all sessions behind a lock. The code has no sharing and no lock.
- The connection is opened with `self.interval` as its timeout, and `interval` is still `None` at that moment. The model records this as `Session.connTimeout == JNull`. A later `new_interval` does not change the connection's timeout.
- `_send_data` handles `TimeoutError` itself, but not `BrokenPipeError`. A broken pipe on a data request reaches the decorator instead. Under the intended decorator the outcome is the same for both: one reopen and no reply.
- A frame that is not JSON makes `json.loads` raise `ValueError`, and the decorator logs it. The design calls this an unknown message. Both have the same visible effect.
- The pool path is derived by plain substring replacement, not by replacing a path segment. The model keeps the substring replacement. `Paths.DeriveRewritesEverySegment` shows where the two differ.
- The default of `--pool-path` is not empty. So the derived path is used only when an empty pool path is passed explicitly.
- `new_interval` stores whatever JSON value the message holds. The value is not required to be a number of seconds.

## Model

| member | source | states |
|---|---|---|
| `Commands.Classify` | mha_server.py:65-92 | a message is classified as unknown exactly when it holds none of the six recognised keys |
| `Commands.FirstKey` | mha_server.py:65-92 | the index of the first key of the priority list present in a message; every earlier key is absent, and there is none exactly when no key is present |
| `Commands.ClassifyIsFirstMatch` | mha_server.py:65-92 | first match wins: the command depends only on the first recognised key present, in the order command, wndlen, alpha, type, beamformer, interval, and on that key's value; later keys are ignored |
| `Commands.Read` | mha_server.py:63-92 | a frame that is not JSON raises ValueError; a JSON object goes through the key chain; any other JSON value either raises TypeError or is an unknown message |
| `Engine.Guard` | mha_server.py:7-22 | intended policy of the decorator: nothing escapes it; a reopen is attempted exactly when TimeoutError or BrokenPipeError left the handler |
| `Engine.GuardAsWritten` | mha_server.py:12-17 | the decorator as written never reopens; for TimeoutError and BrokenPipeError it raises AttributeError from `func.__self__` |
| `Engine.GuardDiffersOnlyOnConnectionFaults` | mha_server.py:7-22 | the written and the intended decorator agree exactly on the outcomes other than the two connection faults |
| `Paths.DerivePoolPath` | mha_server.py:43-45 | the derived pool path always ends in `.pool` |
| `Paths.ResolvePoolPath` | mha_server.py:43-46 | a non-empty explicit pool path is used verbatim; otherwise the derived path is used |
| `Paths.DeriveWithoutId` | mha_server.py:44-45 | a plug-in path that does not contain the pooling id only gains `.pool` |
| `Paths.DeriveInSameNamespace` | mha_server.py:41-45 | when the pooling id is the last segment and occurs nowhere earlier, the monitor is looked up in the same namespace: `namespace + doasvm_mon.pool` |
| `Paths.DeriveExample` | mha_server.py:44-45 | `mha.doachain.pool.pool_instance` with id `pool_instance` gives `mha.doachain.pool.doasvm_mon.pool` |
| `Paths.DeriveRewritesEverySegment` | mha_server.py:44 | substring replacement also rewrites an earlier segment equal to the id: `mha.pool.pool` with id `pool` gives `mha.doasvm_mon.doasvm_mon.pool` |
| `Text.ReplaceAbsent` | mha_server.py:44 | `str.replace` leaves a string without an occurrence of a non-empty pattern unchanged |
| `Text.ReplaceOnlyAtEnd` | mha_server.py:44 | `str.replace` of a pattern that occurs only at the end of a string keeps the prefix and rewrites that occurrence |
| `Bridge.BeamformerSetting` | mha_server.py:86 | the selector value is "Bf" exactly when the flag is truthy, and "NoBf" otherwise |
| `Bridge.FetchReaction` | mha_server.py:50-59 | one `get_val` of the pool path; one `{"data": p}` reply exactly when it returns `p`; a reopen exactly on TimeoutError; nothing escapes for ValueError or TimeoutError, any other exception escapes unchanged |
| `Bridge.SetReaction` | mha_server.py:72-87 | one `set_val` with the given path and value, no reply, interval unchanged; the call's exception, if any, escapes unchanged |
| `Bridge.Respond` | mha_server.py:62-92 | the undecorated handler: an engine call is made exactly for the five engine commands; at most one reply, only for a successful data request; only `new_interval` changes the interval; what escapes is the decoding fault or the engine call's fault |
| `Bridge.Handle` | mha_server.py:7-22 | the decorated handler: nothing escapes; at most one engine call, followed by at most one reopen, exactly when that call hit a timeout or broken pipe; the reply is `{"data": p}` exactly for a successful data request |
| `Bridge.HandleAsWritten` | mha_server.py:7-22 | with the decorator as written, AttributeError escapes exactly when a set command, or a data request by broken pipe, meets a connection fault; the only reopen is the one `_send_data` makes on a timeout |
| `Bridge.AsWrittenTimeoutSkipsReopen` | mha_server.py:14 | a `new_pooling_wndlen` message whose `set_val` times out ends in AttributeError without a reopen as written, and in one reopen as intended |
| `Bridge.PoolingSettingIsOneSet` | mha_server.py:70-81 | a message whose first key is a pooling setting issues one `set_val` on plug-in path + `.pooling_wndlen`, `.alpha` or `.pooling_type` with the message value unchanged, and sends nothing |
| `Bridge.BeamformerIsOneSet` | mha_server.py:82-87 | a message whose first key is `beamformer` issues one `set_val` on `mha.doachain.post.select` with "Bf" for a truthy flag and "NoBf" otherwise |
| `Bridge.IntervalIsLocal` | mha_server.py:88-90 | a message whose first key is `new_interval` only assigns the interval: no engine call, no reply |
| `Bridge.UnknownCommandIsInert` | mha_server.py:65-69 | a `command` key with any value but "send_data" makes no call and sends no reply, whatever later keys are present |
| `Bridge.UnusableFrameIsInert` | mha_server.py:18-21 | malformed JSON, a message with none of the keys, or a non-object frame changes nothing and escapes nothing |
| `Bridge.FetchReadsPool` | mha_server.py:65-67 | a `send_data` request reads the pool path; its reply carries exactly the value read; it reopens exactly on a timeout or broken pipe |
| `Bridge.Session.constructor` | mha_server.py:27-46 | the plug-in path is the first path found, the pool path is resolved once, interval and connection timeout are None, and the only call so far is `find_id(pooling_id)` |
| `Bridge.Session.SendData` | mha_server.py:50-59 | extends the traces exactly as FetchReaction says; paths and interval unchanged |
| `Bridge.Session.SetVal` | mha_server.py:72-87 | extends the call trace by one `set_val`; paths and interval unchanged |
| `Bridge.Session.Dispatch` | mha_server.py:62-92 | the new traces and interval are those Respond gives; plug-in and pool path unchanged |
| `Bridge.Session.OnMessage` | mha_server.py:61-92 | the new traces and interval are those Handle gives; nothing escapes; plug-in and pool path unchanged |
| `Bridge.Open` | mha_server.py:39 | an empty `find_id` result raises IndexError and yields no session; otherwise a fresh session on the first path found |
| `Startup.Discover` | mha_server.py:144-149 | start-up aborts, naming the id, exactly when `find_id` returns an empty list; otherwise it reads the first path found + `.angles` |

## Left out

- Decoding JSON text: a frame is given either already decoded or as not JSON. NaN and infinities, which `json.loads` accepts, are not representable. JSON numbers are reals, so the distinction between integers and floats is not modelled.
- The MHA connection's wire protocol and the internals of `find_id`, `get_val`, `set_val` and `_reopen`. Their results are parameters. A reopen is recorded as attempted; an exception raised by `_reopen` itself is not modelled.
- Exceptions that `find_id` or `MHAConnection(...)` may raise in `__init__`, other than the IndexError of an empty result.
- `write_message` and `json.dumps`: the transport is not modelled, so their failures are not either (a closed socket, a value that cannot be serialised). A reply is recorded in the reply trace.
- What Tornado does with an exception that leaves `on_message`: `handle_conn_errors` as written lets AttributeError escape, and the model stops there.
- The log lines printed for each message.
- The beamformer path is a bytes literal in the source and text everywhere else. The model treats every path as text.
- Command-line parsing (mha_server.py:97-141) and `server_common.main`. Also the minimum, maximum and count of the `angles` values it receives: these are engine-supplied floating-point values.
- The exceptions `get_val` of the angles may raise at start-up, and the closing of the start-up connection by its `with` block.
- visualisation/js/webcam.js: browser camera plumbing with no logic of the bridge.
- Concurrency: the code has none around the connection, and each session has its own connection.

## Findings

| source | as written | input that shows it | evidently intended | confidence | as-written member | corrected member |
|---|---|---|---|---|---|---|
| mha_server.py:14-17 | on TimeoutError or BrokenPipeError the decorator calls `func.__self__._reopen()`; `func` is the plain undecorated function, which has no `__self__`, and `_reopen` belongs to the connection, so AttributeError escapes and nothing is reopened | a `{"new_pooling_wndlen": 5}` message whose `set_val` raises TimeoutError | reopen the handler's connection (`self._mha_conn._reopen()`, as at line 59) and return normally | high; not executed | `Engine.GuardAsWritten`, `Bridge.AsWrittenTimeoutSkipsReopen` | `Engine.Guard`, `Bridge.Handle` |
