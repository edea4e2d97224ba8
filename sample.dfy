/**
 * The functions of sample/functions.py driven through a sending and a receiving process, the
 * way a deployment uses the dispatcher: the worker registers the same functions as the caller.
 */
module Sample {
  import opened Wrappers
  import opened Values
  import opened Signature
  import opened Codec
  import opened Dispatch

  /** `my_func(a, b, cheer='hooray!')` */
  const MyFunc := PyFunction("functions", "my_func",
    Schema([Param("a", false), Param("b", false), Param("cheer", true)], false, [], false))

  /** `echo(*args, **kwargs)` */
  const Echo := PyFunction("functions", "echo", Schema([], true, [], true))

  /** A compressor that stores its input unchanged: a stand-in for gzip that is lossless. */
  const Stored := Compressor(data => data, data => Some(data))

  lemma SampleFacts()
    ensures Lossless(Stored)
    ensures Identity(MyFunc) == "functions.my_func" && Identity(Echo) == "functions.echo"
    ensures Bind(MyFunc.signature, [Int(1)], []) == Fail(MissingArgument("b"))
    ensures Bind(MyFunc.signature, [Int(1), Int(2)], []) == Pass
    ensures Envelope("functions.my_func", [Int(1), Int(2)], []).Picklable()
  {
  }

  /**
   * The caller registers `my_func` and `echo`, fails to register `my_func` twice, is refused a
   * call that lacks `b`, and publishes `my_func(1, 2)`; the worker, with the same functions
   * registered, receives the packet and runs `my_func(1, 2)` once.
   */
  method CallerAndWorker()
    returns (duplicate: Result<Handle, Error>, refused: Result<(), Error>,
             published: seq<Packet>, ran: seq<Invocation>)
    ensures duplicate == Failure(DuplicateName("functions.my_func"))
    ensures refused == Failure(TypeError(MissingArgument("b")))
    ensures |published| == 1 && published[0].topic == "projects/p/topics/t"
    ensures ran == [Invocation(MyFunc, [Int(1), Int(2)], [])]
  {
    SampleFacts();
    var caller := new Dispatcher("projects/p/topics/t", Stored);
    var send := caller.Dispatch(MyFunc);
    var _ := caller.Dispatch(Echo);
    duplicate := caller.Dispatch(MyFunc);
    refused := caller.Send(send.value, [Int(1)], []);
    var sent := caller.Send(send.value, [Int(1), Int(2)], []);
    published := caller.outbox;

    var worker := new Dispatcher("projects/p/topics/t", Stored);
    var _ := worker.Dispatch(MyFunc);
    var _ := worker.Dispatch(Echo);
    DeliveredAsCalled(Stored, caller.topic, MyFunc, worker.functions, [Int(1), Int(2)], [], false);
    var _ := worker.ReceiveFromRemote(published[0].payload, false);
    ran := worker.invocations;
  }

  /** `_test_function_with_arguments_decorated(a1, a2, a3, a4, a5, a6, x=42, y='z')` of the tests. */
  const SixRequiredTwoOptional := Schema(
    [Param("a1", false), Param("a2", false), Param("a3", false), Param("a4", false),
     Param("a5", false), Param("a6", false), Param("x", true), Param("y", true)],
    false, [], false)

  /** Six positionals and both keywords bind; `(1, 3)` leaves `a3` without a value. */
  lemma SixRequiredTwoOptionalBinds()
    ensures Bind(SixRequiredTwoOptional, [Int(1), Int(2), Int(3), Str("a"), Str("b"), Str("c")],
                 [("x", Int(1)), ("y", Str("y"))]) == Pass
    ensures Bind(SixRequiredTwoOptional, [Int(1), Int(3)], []) == Fail(MissingArgument("a3"))
  {
    var kwargs := [("x", Int(1)), ("y", Str("y"))];
    assert KeyList(kwargs) == ["x", "y"];
    var pos := SixRequiredTwoOptional.positional;
    forall j | 0 <= j < 6 ensures pos[j].name !in ["x", "y"] {
      assert pos[j].name[0] == 'a';
    }
    assert pos[6].name == "x" && pos[7].name == "y";
    assert Accepts(SixRequiredTwoOptional, 6, ["x", "y"]);
    assert Unbound(SixRequiredTwoOptional, 2)[0] == Param("a3", false);
  }
}
