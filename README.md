# cloud-functions-dispatch, modelled in Dafny

`cloud_functions_dispatch` turns ordinary Python functions into remotely invocable ones. The
`dispatch` decorator registers a function under the identity `module.qualname` and replaces it
with a wrapper. Calling the wrapper checks the arguments against the function's signature and
then publishes an envelope (`_F(name, args, kwargs)`, pickled and gzipped) to a Pub/Sub topic instead of
running the function. A Cloud Function worker receives each message through `execute`. It
base64-decodes the message, unpacks the envelope, looks the name up in its own registry and
calls the function there. Every `Exception` raised inside `execute`'s `try` (f.py:50-53) is
caught and logged rather than escaping.

The model follows `cloud_functions_dispatch/f.py`:

- `values.dfy` (module `Values`): argument values as a tagged union, keyword arguments in call
  order, and the envelope `Envelope` (the `_F` record).
- `serial.dfy` (module `Serial`): serialization of envelopes. It plays the role of `pickle`
  in a byte layout of its own, and decoding is proved to invert encoding.
- `codec.dfy` (module `Codec`): `_pack`/`_unpack`. Compression is an abstract `Compressor`
  pair, and the one fact the dispatcher needs of gzip, `Lossless`, is a lemma hypothesis.
- `signature.dfy` (module `Signature`): `inspect.Signature.bind` on a declared parameter
  schema. It fails in `Signature.bind`'s order, and its contract equates it with a
  declarative `Accepts` predicate.
- `dispatch.dfy` (module `Dispatch`): the identity, the registry update, publishing,
  receiving and `execute` as pure functions. Class `Dispatcher` holds one process's state:
  the registry `functions`, the published packets `outbox` and the local runs
  `invocations`. Its methods are proved against those functions, and its invariant
  `Valid()` ties them together.
- `sample.dfy` (module `Sample`): the functions of `sample/functions.py` sent by one
  `Dispatcher` and run by another, plus the signature example of the tests.

`Dispatcher.Execute` takes the base64 decoder as a parameter. The receiving path takes
`bodyRaises`, whether the target's body raises, as a parameter. `Execute` returns
`logged`, the exception `execute` would catch and log, and it has no precondition on the
event. That is how the model states that no `Exception` raised on the receiving path escapes.

## Model

| member | source | states |
|---|---|---|
| Dispatch.Register | cloud_functions_dispatch/f.py:29-33 | fails with a `KeyError` exactly when the identity is already registered; otherwise adds exactly that key, mapped to the function, and keeps every other entry; preserves "every entry is filed under its function's identity" |
| Dispatch.IdentityInjective | cloud_functions_dispatch/f.py:29 | for module-level functions (no dot in `__qualname__`), equal identities mean equal module and name |
| Dispatch.DotInsideLonger | cloud_functions_dispatch/f.py:29 | if two `prefix.suffix` strings agree and one suffix is shorter, the other suffix contains a dot |
| Dispatch.IdentityCollision | cloud_functions_dispatch/f.py:29-32 | function `c` of module `a.b` and method `b.c` of module `a` share an identity, so the second is refused with `KeyError` |
| Dispatch.WrapperNameInjective | cloud_functions_dispatch/f.py:42 | wrapper names `<identity>_dispatch` are equal exactly when identities are, and the identity is the name without the suffix |
| Dispatch.Publish | cloud_functions_dispatch/f.py:37-40 | a call that does not bind yields the `TypeError` and no packet; a call that binds yields a packet exactly when every argument can be pickled, and that packet is on the configured topic |
| Dispatch.PublishedEnvelopeUnpacks | cloud_functions_dispatch/f.py:40 | the payload published for a call unpacks to `_F(identity, args, kwargs)` of that call |
| Dispatch.Call | cloud_functions_dispatch/f.py:95 | the target runs (one recorded invocation with the given arguments) exactly when the arguments bind to its signature; the call succeeds exactly when it ran and the body did not raise; a call that does not bind fails with the `TypeError` of the failed bind, and a body that raises fails with that function's exception (the `TypeError`'s reason is given in `Signature.bind`'s order, see Left out) |
| Dispatch.Receive | cloud_functions_dispatch/f.py:91-95 | at most one invocation; an unpacking error or an unknown name (`KeyError`) runs nothing; an envelope naming a registered function is exactly the call of that entry with the envelope's arguments; any invocation is of that entry, and in a registry keyed by identity its target's identity is the envelope's name |
| Dispatch.ExecuteDelivery | cloud_functions_dispatch/f.py:48-53 | a missing `data` field or undecodable base64 ends with an error and no call; otherwise the delivery is that of the receiving path on the decoded bytes |
| Dispatch.DeliveredAsCalled | cloud_functions_dispatch/f.py:86-95 | a packet published by the wrapper of `f`, received where `f` is registered under its identity, runs `f` exactly once with the original arguments and ends as its body does |
| Dispatch.ExecutedAsCalled | cloud_functions_dispatch/f.py:48-53 | through `execute`, when the event's `data` decodes to the published payload: `f` runs exactly once with the original arguments, and the delivery ends with `f`'s exception if its body raises and without one otherwise |
| Dispatch.Dispatcher.constructor | cloud_functions_dispatch/f.py:57-72 | a process starts with an empty registry, nothing published, nothing run, and a fixed topic |
| Dispatch.Dispatcher.Dispatch | cloud_functions_dispatch/f.py:28-45 | on a taken identity: `KeyError`, registry unchanged, no wrapper; otherwise the registry is the `Register` update and the result is the wrapper named `<identity>_dispatch`; no entry is ever removed or changed; nothing published or run |
| Dispatch.Dispatcher.Send | cloud_functions_dispatch/f.py:37-40 | on a `TypeError` or pickling error nothing is published; otherwise exactly one packet `(topic, _pack(_F(identity, args, kwargs)))` is appended and nothing is returned; the function never runs locally; registry unchanged |
| Dispatch.Dispatcher.SendToRemote | cloud_functions_dispatch/f.py:86-88 | appends `(topic, _pack(f))` to the outbox, or propagates the pickling error and publishes nothing |
| Dispatch.Dispatcher.ReceiveFromRemote | cloud_functions_dispatch/f.py:91-95 | the invocation log grows by exactly the calls of `Receive`, and the result is its exception; a new invocation's target has the envelope's name as its identity; registry and outbox unchanged |
| Dispatch.Dispatcher.Execute | cloud_functions_dispatch/f.py:48-53 | returns for every event, with every `Exception` of the receiving path in `logged`; the invocation log grows by exactly the calls of `ExecuteDelivery`, and `logged` is the exception it ended with |
| Codec.Pack | cloud_functions_dispatch/f.py:75-79 | fails, with a pickling error, exactly when some argument cannot be pickled |
| Codec.Unpack | cloud_functions_dispatch/f.py:82-83 | every envelope it returns has picklable arguments and no keyword twice |
| Codec.PackUnpack | cloud_functions_dispatch/f.py:75-83 | `_unpack(_pack(e)) == e` for every envelope a call can build, given that decompression undoes compression |
| Serial.EnvelopeRoundTrip | cloud_functions_dispatch/f.py:77 | decoding the serialization of an envelope gives the envelope back |
| Serial.ValueRoundTrip | cloud_functions_dispatch/f.py:77 | decoding a value's serialization, followed by any bytes, gives the value and exactly those bytes |
| Serial.IntRoundTrip | cloud_functions_dispatch/f.py:77 | the same for an integer of either sign |
| Serial.StrRoundTrip | cloud_functions_dispatch/f.py:77 | the same for a string value |
| Serial.ListRoundTrip | cloud_functions_dispatch/f.py:77 | the same for a list of picklable values |
| Serial.DictRoundTrip | cloud_functions_dispatch/f.py:77 | the same for a string-keyed dict of picklable values, entries in order |
| Serial.ValuesRoundTrip | cloud_functions_dispatch/f.py:77 | the same for a sequence of positional arguments |
| Serial.EntriesRoundTrip | cloud_functions_dispatch/f.py:77 | the same for keyword arguments, in order |
| Serial.StringRoundTrip | cloud_functions_dispatch/f.py:77 | the same for strings |
| Serial.CharsRoundTrip | cloud_functions_dispatch/f.py:77 | the same for the characters of a string |
| Serial.NatRoundTrip | cloud_functions_dispatch/f.py:77 | the same for the varint of a natural number |
| Serial.DecodeValue | cloud_functions_dispatch/f.py:83 | a decoded value consumes at least one byte and is picklable again |
| Serial.DecodeEnvelope | cloud_functions_dispatch/f.py:83 | a decoded envelope can be replayed as a Python call: picklable arguments, distinct keywords |
| Signature.Bind | cloud_functions_dispatch/f.py:39 | passes exactly when `Accepts` holds; each failure names an offence the call commits (too many positionals without `*args`, a parameter given twice, a required parameter missing, an unknown keyword without `**kwargs`) |
| Signature.BindPositional | cloud_functions_dispatch/f.py:39 | the positional phase passes exactly when no positional is left over (or `*args` takes it) and no positionally bound parameter is also a keyword |
| Signature.FirstMissing | cloud_functions_dispatch/f.py:39 | passes exactly when every unbound parameter has a keyword or a default; otherwise names one that has neither |
| Signature.FirstUnexpected | cloud_functions_dispatch/f.py:39 | passes exactly when every keyword names an unbound parameter; otherwise names one that does not |
| Sample.CallerAndWorker | sample/functions.py:13-19 | registering `my_func` twice raises `KeyError`; `my_func(1)` raises `TypeError` for `b`; `my_func(1, 2)` publishes one packet, which runs `my_func(1, 2)` exactly once on a worker |
| Sample.SixRequiredTwoOptionalBinds | tests/test_f.py:121-126 | against the signature `(a1, …, a6, x=42, y='z')`, the call with six positionals and `x=1, y='y'` binds, and the call `(1, 3)` fails for the missing `a3` |

## Left out

- pickle's byte format: `Serial` is a tagged, length-prefixed layout of this model's own. Floats, `complex`, bytes, tuples as distinct from lists, sets, dicts with keys that are not strings, `str` values holding lone surrogates (Dafny's `char` cannot hold them), and picklable user classes are not modelled. `Unpicklable` stands for every object pickle refuses. Any malformed payload, including one that unpickles to something other than an `_F`, is one `UnpicklingError`. `pickle.loads` ignores bytes after the pickled object, while `Serial.DecodeEnvelope` refuses them; that difference only concerns payloads the dispatcher never produces.
- gzip (RFC 1952): `Codec.Compressor` is any pair of functions, and the proofs assume only `Lossless`. The size of the compressed output is not modelled.
- base64 decoding in `execute` (f.py:51): a function parameter of `Dispatcher.Execute`, with `None` standing for `binascii.Error`.
- The Pub/Sub client (f.py:14, 57-58, 88): publishing appends a `Packet` to `outbox` and cannot fail. The topic path is a constructor argument, not built from the project and topic names.
- Environment variables and the start-up `assert`s (f.py:20-25).
- All logging, including the `context.event_id`/`context.timestamp` line and `_F.__str__` (f.py:68-69), which only feeds log lines. `execute`'s `context` argument is therefore not modelled.
- The demo registrations `ping_show_args` and `ping_forward_to_show_args` (f.py:98-106): a `Dispatcher` starts with an empty registry.
- `inspect.signature` reflection: functions carry a declared `Schema`. Positional-only parameters, and a `signature()` call that fails, are not modelled.
- `functools.wraps` copies `__doc__`, `__qualname__` and other attributes. Only `__name__` and `__wrapped__` are kept in `Handle`.
- Function bodies: only whether a body raises (`bodyRaises`) is modelled, not what it does. A body can itself register or publish; `ping_forward_to_show_args` (f.py:103-106) calls another wrapper, so receiving it publishes a packet. `Dispatcher.ReceiveFromRemote` and `Dispatcher.Execute` leave registry and outbox unchanged, so such effects are not captured.
- Python compares dicts without regard to order. The model keeps keyword arguments in call order and compares them in order, which is the stronger equality.
- Exception names: the source raises `KeyError` for a duplicate registration and for a lookup miss. The model tells the two apart as `DuplicateName` and `MissingKey`.
- Concurrency: there is none in the core.
- Codec.Pack: every object pickle refuses is modelled as one `PicklingError`. CPython raises `TypeError` for a lock or an open file, which the caller of a wrapper cannot tell apart from a failed bind by its class, and `PicklingError` or `AttributeError` for a lambda or local function. On the receiving side, gzip's `BadGzipFile`, `EOFError` and `zlib.error` are all folded into `BadGzipFile`.
- Exceptions that are not `Exception`s: `execute` catches only `Exception` (f.py:52), so a `SystemExit` or `KeyboardInterrupt` raised by a function body would escape it. `bodyRaises` stands only for a body raising an `Exception`.
- `execute` reads `context.event_id` and `context.timestamp` before its `try` (f.py:49). A `context` without them would raise out of `execute`; the model has no `context` and does not capture that.
- Dispatch.Call: the reason in a worker-side `TypeError` follows `Signature.bind`'s order (positionals, then missing parameters, then unknown keywords). A direct Python call checks keywords first, so for `def f(a, b)` called as `f(1, z=1, a=2)` Python names `z` where the model gives `MultipleValues("a")`. The calls that bind, and so whether the target runs, are the same.
