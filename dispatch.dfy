/**
 * The dispatcher of cloud_functions_dispatch/f.py: the registry `_functions`, the `dispatch`
 * decorator and the `send` wrapper it returns, the publishing path `_send_to_remote`, the
 * receiving path `_receive_from_remote` and the Cloud Functions entry point `execute`.
 *
 * The pure functions below say what each step does to values; the class `Dispatcher` holds
 * the state one process keeps (its registry, the packets it has published, the calls it has
 * run locally) and its methods are proved against those functions.
 */
module Dispatch {
  import opened Wrappers
  import opened Values
  import opened Signature
  import opened Codec

  /** A Python function as the dispatcher sees it: where it is defined and what it accepts. */
  datatype PyFunction = PyFunction(moduleName: string, qualname: string, signature: Schema)

  /** `_functions`: identity to function. */
  type Registry = map<string, PyFunction>

  /** The wrapper `dispatch` returns: its `__name__`, the identity and signature it closes over,
      and the function it replaces (`__wrapped__`). */
  datatype Handle = Handle(name: string, identity: string, signature: Schema, wrapped: PyFunction)

  /** One `publish(topic, data)` call on the Pub/Sub client. */
  datatype Packet = Packet(topic: string, payload: seq<Byte>)

  /** One local run of a registered function. */
  datatype Invocation = Invocation(target: PyFunction, args: seq<Value>, kwargs: Kwargs)

  /** The exceptions of the core. Both `DuplicateName` and `MissingKey` are Python `KeyError`s. */
  datatype Error =
    | DuplicateName(identity: string)
    | MissingKey(key: string)
    | TypeError(reason: BindError)
    | CodecFailure(cause: CodecError)
    | Base64Error
    | TargetRaised(identity: string)

  /** What handling one message did: the exception it ended with, if any, and the local calls. */
  datatype Delivery = Delivery(result: Result<(), Error>, calls: seq<Invocation>)

  const DispatchSuffix: string := "_dispatch"

  // ---------------------------------------------------------------- identity and registration

  /** `func.__module__ + "." + func.__qualname__`. */
  function Identity(f: PyFunction): string {
    f.moduleName + "." + f.qualname
  }

  /** The wrapper's `__name__`. */
  function WrapperName(identity: string): string {
    identity + DispatchSuffix
  }

  /** The wrapper `dispatch(f)` returns once `f` is registered. */
  function Wrap(f: PyFunction): Handle {
    Handle(WrapperName(Identity(f)), Identity(f), f.signature, f)
  }

  /** Every entry is filed under the identity of its own function. */
  predicate KeyedByIdentity(reg: Registry) {
    forall k :: k in reg ==> Identity(reg[k]) == k
  }

  /**
   * The registration half of `dispatch`: refuses an identity already present and otherwise
   * adds exactly that one entry, leaving every other entry as it was.
   */
  function Register(reg: Registry, f: PyFunction): (r: Result<Registry, Error>)
    ensures r.Failure? <==> Identity(f) in reg
    ensures r.Failure? ==> r.error == DuplicateName(Identity(f))
    ensures r.Success? ==> r.value.Keys == reg.Keys + {Identity(f)} && r.value[Identity(f)] == f
    ensures r.Success? ==> forall k :: k in reg ==> k in r.value && r.value[k] == reg[k]
    ensures r.Success? && KeyedByIdentity(reg) ==> KeyedByIdentity(r.value)
  {
    var name := Identity(f);
    if name in reg then Failure(DuplicateName(name)) else Success(reg[name := f])
  }

  // ---------------------------------------------------------------- sending

  /**
   * What calling the wrapper `h` publishes: nothing, with a `TypeError`, when the arguments do
   * not bind to the signature; nothing, with the pickling error, when they cannot be
   * serialized; otherwise one packet on `topic`.
   */
  function Publish(c: Compressor, topic: string, h: Handle, args: seq<Value>, kwargs: Kwargs)
    : (r: Result<Packet, Error>)
    ensures Bind(h.signature, args, kwargs).Fail? ==>
      r == Failure(TypeError(Bind(h.signature, args, kwargs).error))
    ensures Bind(h.signature, args, kwargs) == Pass ==>
      (r.Success? <==> Envelope(h.identity, args, kwargs).Picklable())
    ensures r.Failure? && !r.error.TypeError? ==> r.error == CodecFailure(PicklingError)
    ensures r.Success? ==> r.value.topic == topic
  {
    match Bind(h.signature, args, kwargs)
    case Fail(e) => Failure(TypeError(e))
    case Pass =>
      match Pack(c, Envelope(h.identity, args, kwargs))
      case Failure(e) => Failure(CodecFailure(e))
      case Success(data) => Success(Packet(topic, data))
  }

  // ---------------------------------------------------------------- receiving

  /**
   * The Python call `target(*args, **kwargs)`: a `TypeError` and no run when the arguments do
   * not bind; otherwise one run, which raises when the body does. The reason carried by the
   * `TypeError` is the one `Signature.bind` would give.
   */
  function Call(target: PyFunction, args: seq<Value>, kwargs: Kwargs, bodyRaises: bool): (d: Delivery)
    ensures d.calls == [] <==> Bind(target.signature, args, kwargs).Fail?
    ensures d.calls != [] ==> d.calls == [Invocation(target, args, kwargs)]
    ensures d.result.Success? <==> d.calls != [] && !bodyRaises
    ensures Bind(target.signature, args, kwargs).Fail? ==>
      d.result == Failure(TypeError(Bind(target.signature, args, kwargs).error))
    ensures d.calls != [] && bodyRaises ==> d.result == Failure(TargetRaised(Identity(target)))
  {
    match Bind(target.signature, args, kwargs)
    case Fail(e) => Delivery(Failure(TypeError(e)), [])
    case Pass =>
      Delivery(if bodyRaises then Failure(TargetRaised(Identity(target))) else Success(()),
               [Invocation(target, args, kwargs)])
  }

  /**
   * `_receive_from_remote(data)`: unpack, look the name up, call. Runs at most one function,
   * and a function only when the payload unpacks to a registered name; a payload that does
   * unpack to a registered name is called on that entry, with the envelope's arguments.
   */
  function Receive(reg: Registry, c: Compressor, data: seq<Byte>, bodyRaises: bool): (d: Delivery)
    ensures |d.calls| <= 1
    ensures Unpack(c, data).Success? && Unpack(c, data).value.name in reg ==>
      var e := Unpack(c, data).value;
      d == Call(reg[e.name], e.args, e.kwargs, bodyRaises)
    ensures Unpack(c, data).Failure? ==> d == Delivery(Failure(CodecFailure(Unpack(c, data).error)), [])
    ensures Unpack(c, data).Success? && Unpack(c, data).value.name !in reg ==>
      d == Delivery(Failure(MissingKey(Unpack(c, data).value.name)), [])
    ensures d.calls != [] ==>
      && Unpack(c, data).Success?
      && var e := Unpack(c, data).value;
         e.name in reg && d.calls == [Invocation(reg[e.name], e.args, e.kwargs)]
    ensures d.calls != [] && KeyedByIdentity(reg) ==>
      Identity(d.calls[0].target) == Unpack(c, data).value.name
  {
    match Unpack(c, data)
    case Failure(e) => Delivery(Failure(CodecFailure(e)), [])
    case Success(f) =>
      if f.name !in reg then Delivery(Failure(MissingKey(f.name)), [])
      else Call(reg[f.name], f.args, f.kwargs, bodyRaises)
  }

  /**
   * `execute(event, context)`: the message is `event['data']`, base64-decoded by `b64decode`.
   * A missing field or undecodable text ends the delivery the way an unpacking error does:
   * with an error and no call.
   */
  function ExecuteDelivery(
    reg: Registry, c: Compressor, b64decode: string -> Option<seq<Byte>>,
    event: map<string, string>, bodyRaises: bool): (d: Delivery)
    ensures "data" !in event ==> d == Delivery(Failure(MissingKey("data")), [])
    ensures "data" in event && b64decode(event["data"]).None? ==> d == Delivery(Failure(Base64Error), [])
    ensures "data" in event && b64decode(event["data"]).Some? ==>
      d == Receive(reg, c, b64decode(event["data"]).value, bodyRaises)
  {
    if "data" !in event then Delivery(Failure(MissingKey("data")), [])
    else
      match b64decode(event["data"])
      case None => Delivery(Failure(Base64Error), [])
      case Some(data) => Receive(reg, c, data, bodyRaises)
  }

  // ---------------------------------------------------------------- properties

  /**
   * For functions whose qualified name has no dot (module-level functions), the identity
   * tells functions apart: module and name can be read back from it.
   */
  lemma IdentityInjective(f: PyFunction, g: PyFunction)
    requires '.' !in f.qualname && '.' !in g.qualname
    requires Identity(f) == Identity(g)
    ensures f.moduleName == g.moduleName && f.qualname == g.qualname
  {
    var s, a, b := Identity(f), f.qualname, g.qualname;
    assert s == f.moduleName + "." + a == g.moduleName + "." + b;
    if |a| < |b| {
      DotInsideLonger(f.moduleName, a, g.moduleName, b);
      assert false;
    } else if |b| < |a| {
      DotInsideLonger(g.moduleName, b, f.moduleName, a);
      assert false;
    }
    assert a == s[|s| - |a|..] == b;
    assert f.moduleName == s[..|s| - |a| - 1] == g.moduleName;
  }

  /** If two dotted names agree and one part after the dot is shorter, the dot sits in the other. */
  lemma DotInsideLonger(m: string, a: string, n: string, b: string)
    requires m + "." + a == n + "." + b
    requires |a| < |b|
    ensures '.' in b
  {
    var s := m + "." + a;
    assert s[|m|] == '.';
    assert s[|m|] == b[|b| - |a| - 1];
  }

  /**
   * Without that restriction the identity is ambiguous: function `c` of module `a.b` and method
   * `c` of class `b` in module `a` share `a.b.c`, so the second of them cannot be registered.
   */
  lemma IdentityCollision(sig: Schema)
    ensures var f, g := PyFunction("a.b", "c", sig), PyFunction("a", "b.c", sig);
      && f != g && Identity(f) == Identity(g)
      && Register(map[Identity(f) := f], g) == Failure(DuplicateName("a.b.c"))
  {
    assert Identity(PyFunction("a", "b.c", sig)) == "a.b.c";
  }

  /** Distinct identities give distinct wrapper names, and the identity is the name minus its suffix. */
  lemma WrapperNameInjective(x: string, y: string)
    ensures WrapperName(x) == WrapperName(y) <==> x == y
    ensures WrapperName(x)[..|x|] == x
  {
    assert WrapperName(x)[..|x|] == x;
    if WrapperName(x) == WrapperName(y) {
      assert |x| == |y|;
      assert WrapperName(y)[..|y|] == y;
    }
  }

  /** The packet `send` publishes unpacks to the envelope of the call it was given. */
  lemma PublishedEnvelopeUnpacks(c: Compressor, topic: string, h: Handle, args: seq<Value>, kwargs: Kwargs)
    requires Lossless(c)
    requires DistinctKeys(kwargs)
    requires Publish(c, topic, h, args, kwargs).Success?
    ensures Unpack(c, Publish(c, topic, h, args, kwargs).value.payload) == Success(Envelope(h.identity, args, kwargs))
  {
    PackUnpack(c, Envelope(h.identity, args, kwargs));
  }

  /**
   * End to end: a call published by the wrapper of `f`, delivered to a process that registered
   * the same `f`, runs `f` there exactly once with the original arguments, and ends the way
   * the body does.
   */
  lemma DeliveredAsCalled(
    c: Compressor, topic: string, f: PyFunction, reg: Registry,
    args: seq<Value>, kwargs: Kwargs, bodyRaises: bool)
    requires Lossless(c)
    requires DistinctKeys(kwargs)
    requires Identity(f) in reg && reg[Identity(f)] == f
    requires Publish(c, topic, Wrap(f), args, kwargs).Success?
    ensures Receive(reg, c, Publish(c, topic, Wrap(f), args, kwargs).value.payload, bodyRaises)
      == Delivery(if bodyRaises then Failure(TargetRaised(Identity(f))) else Success(()),
                  [Invocation(f, args, kwargs)])
  {
    PublishedEnvelopeUnpacks(c, topic, Wrap(f), args, kwargs);
  }

  /** The same through `execute`, when the event carries the packet base64-encoded. */
  lemma ExecutedAsCalled(
    c: Compressor, topic: string, f: PyFunction, reg: Registry,
    args: seq<Value>, kwargs: Kwargs, bodyRaises: bool,
    b64decode: string -> Option<seq<Byte>>, event: map<string, string>)
    requires Lossless(c)
    requires DistinctKeys(kwargs)
    requires Identity(f) in reg && reg[Identity(f)] == f
    requires Publish(c, topic, Wrap(f), args, kwargs).Success?
    requires "data" in event && b64decode(event["data"]) == Some(Publish(c, topic, Wrap(f), args, kwargs).value.payload)
    ensures ExecuteDelivery(reg, c, b64decode, event, bodyRaises)
      == Delivery(if bodyRaises then Failure(TargetRaised(Identity(f))) else Success(()),
                  [Invocation(f, args, kwargs)])
  {
    DeliveredAsCalled(c, topic, f, reg, args, kwargs, bodyRaises);
  }

  // ---------------------------------------------------------------- the state of one process

  class Dispatcher {
    /** `_functions` */
    var functions: Registry
    /** everything handed to `_publisher.publish`, oldest first */
    var outbox: seq<Packet>
    /** every local run of a registered function, oldest first */
    var invocations: seq<Invocation>
    /** `_topic`, fixed at start-up */
    const topic: string
    /** gzip */
    const compressor: Compressor

    /**
     * Entries are filed under their own identity, everything is published on the one topic,
     * and only registered functions have run.
     */
    ghost predicate Valid()
      reads this
    {
      && KeyedByIdentity(functions)
      && (forall i :: 0 <= i < |outbox| ==> outbox[i].topic == topic)
      && (forall i :: 0 <= i < |invocations| ==> invocations[i].target in functions.Values)
    }

    constructor (topic: string, compressor: Compressor)
      ensures Valid()
      ensures this.topic == topic && this.compressor == compressor
      ensures functions == map[] && outbox == [] && invocations == []
    {
      this.topic := topic;
      this.compressor := compressor;
      functions := map[];
      outbox := [];
      invocations := [];
    }

    /**
     * `dispatch(func)`: registers `func` under its identity and returns the wrapper, or raises
     * `KeyError` and leaves the registry as it was. Nothing is published or run.
     */
    method Dispatch(func: PyFunction) returns (r: Result<Handle, Error>)
      requires Valid()
      modifies this`functions
      ensures Valid()
      ensures outbox == old(outbox) && invocations == old(invocations)
      ensures match Register(old(functions), func)
        case Failure(e) => r == Failure(e) && functions == old(functions)
        case Success(reg) => r == Success(Wrap(func)) && functions == reg
      ensures forall k :: k in old(functions) ==> k in functions && functions[k] == old(functions)[k]
    {
      var name := Identity(func);
      if name in functions {
        return Failure(DuplicateName(name));
      }
      ghost var before := functions;
      functions := functions[name := func];
      forall v | v in before.Values ensures v in functions.Values {
        var k :| k in before && before[k] == v;
        assert functions[k] == v;
      }
      var send := Handle(name + DispatchSuffix, name, func.signature, func);
      r := Success(send);
    }

    /**
     * Calling the wrapper `h`: checks the arguments against the signature, then publishes the
     * envelope instead of running the function. Returns nothing on success.
     */
    method Send(h: Handle, args: seq<Value>, kwargs: Kwargs) returns (r: Result<(), Error>)
      requires Valid()
      modifies this`outbox
      ensures Valid()
      ensures functions == old(functions) && invocations == old(invocations)
      ensures match Publish(compressor, topic, h, args, kwargs)
        case Failure(e) => r == Failure(e) && outbox == old(outbox)
        case Success(p) => r == Success(()) && outbox == old(outbox) + [p]
    {
      var bound := Bind(h.signature, args, kwargs);
      if bound.Fail? {
        return Failure(TypeError(bound.error));
      }
      r := SendToRemote(Envelope(h.identity, args, kwargs));
    }

    /** `_send_to_remote(f)`: pack, then publish on the one configured topic. */
    method SendToRemote(f: Envelope) returns (r: Result<(), Error>)
      requires Valid()
      modifies this`outbox
      ensures Valid()
      ensures functions == old(functions) && invocations == old(invocations)
      ensures match Pack(compressor, f)
        case Failure(e) => r == Failure(CodecFailure(e)) && outbox == old(outbox)
        case Success(data) => r == Success(()) && outbox == old(outbox) + [Packet(topic, data)]
    {
      var packed := Pack(compressor, f);
      if packed.Failure? {
        return Failure(CodecFailure(packed.error));
      }
      outbox := outbox + [Packet(topic, packed.value)];
      r := Success(());
    }

    /** `_receive_from_remote(data)`. */
    method ReceiveFromRemote(data: seq<Byte>, bodyRaises: bool) returns (r: Result<(), Error>)
      requires Valid()
      modifies this`invocations
      ensures Valid()
      ensures functions == old(functions) && outbox == old(outbox)
      ensures var d := Receive(functions, compressor, data, bodyRaises);
        r == d.result && invocations == old(invocations) + d.calls
      ensures |invocations| > |old(invocations)| ==>
        Identity(invocations[|invocations| - 1].target) == Unpack(compressor, data).value.name
    {
      var unpacked := Unpack(compressor, data);
      if unpacked.Failure? {
        return Failure(CodecFailure(unpacked.error));
      }
      var f := unpacked.value;
      if f.name !in functions {
        return Failure(MissingKey(f.name));
      }
      // `_functions[f.name](*f.args, **f.kwargs)`
      var target := functions[f.name];
      var bound := Bind(target.signature, f.args, f.kwargs);
      if bound.Fail? {
        return Failure(TypeError(bound.error));
      }
      invocations := invocations + [Invocation(target, f.args, f.kwargs)];
      r := if bodyRaises then Failure(TargetRaised(Identity(target))) else Success(());
    }

    /**
     * `execute(event, context)`: every `Exception` raised inside its `try` (a missing `data`
     * field, bad base64, an unpacking error, a lookup miss, a `TypeError` of the call, an
     * exception of the body) is caught and only logged; `logged` is what `log.exception`
     * reports. The method has no precondition on the event.
     */
    method Execute(event: map<string, string>, b64decode: string -> Option<seq<Byte>>, bodyRaises: bool)
      returns (logged: Option<Error>)
      requires Valid()
      modifies this`invocations
      ensures Valid()
      ensures functions == old(functions) && outbox == old(outbox)
      ensures var d := ExecuteDelivery(functions, compressor, b64decode, event, bodyRaises);
        && invocations == old(invocations) + d.calls
        && logged == if d.result.Failure? then Some(d.result.error) else None
    {
      if "data" !in event {
        return Some(MissingKey("data"));
      }
      var data := b64decode(event["data"]);
      if data.None? {
        return Some(Base64Error);
      }
      var r := ReceiveFromRemote(data.value, bodyRaises);
      logged := if r.Failure? then Some(r.error) else None;
    }
  }
}
