/**
 * The argument check `send` performs before publishing (`signature.bind(*args, **kwargs)` at
 * cloud_functions_dispatch/f.py:39), and the one a Python call performs before running the
 * target on the receiving side (f.py:95). The function's parameter list is a declared schema
 * instead of reflection; `Bind` follows the order of `Signature.bind`, so that on the sending
 * side the first offence it meets is the one Python reports, and `Accepts` says declaratively
 * which calls bind. A direct call accepts exactly the same calls, but checks keywords before
 * positionals, so its `TypeError` may name a different offence.
 */
module Signature {
  import opened Wrappers
  import opened Values

  datatype Param = Param(name: string, hasDefault: bool)

  /**
   * A Python parameter list: positional-or-keyword parameters, an optional `*args`, keyword-only
   * parameters, an optional `**kwargs`. The names of `*args` and `**kwargs` play no part in
   * binding and are not kept.
   */
  datatype Schema = Schema(
    positional: seq<Param>,
    varArgs: bool,
    keywordOnly: seq<Param>,
    varKeywords: bool)

  /** The `TypeError`s of binding, one per message CPython can give. */
  datatype BindError =
    | TooManyPositional
    | MultipleValues(name: string)
    | MissingArgument(name: string)
    | UnexpectedKeyword(name: string)

  function Min(a: int, b: int): int {
    if a <= b then a else b
  }

  /** The parameters left for keywords once `n` positional arguments are bound. */
  function Unbound(s: Schema, n: nat): seq<Param> {
    s.positional[Min(n, |s.positional|)..] + s.keywordOnly
  }

  function Names(ps: seq<Param>): set<string> {
    set i | 0 <= i < |ps| :: ps[i].name
  }

  /**
   * First phase: positional arguments `i` to `n - 1` go to the positional parameters in order.
   * An argument with no positional parameter left goes to `*args` or is one too many; a
   * parameter that also appears among the keywords gets two values.
   */
  function BindPositional(s: Schema, i: nat, n: nat, keys: seq<string>): (r: Outcome<BindError>)
    requires i <= n
    ensures r == Pass <==>
      && (n <= |s.positional| || s.varArgs || i == n)
      && (forall j :: i <= j < n && j < |s.positional| ==> s.positional[j].name !in keys)
    ensures r == Fail(TooManyPositional) ==> |s.positional| < n && !s.varArgs
    ensures r.Fail? && r.error.MultipleValues? ==>
      exists j :: i <= j < n && j < |s.positional| && s.positional[j].name == r.error.name && r.error.name in keys
    ensures r.Fail? ==> r.error.TooManyPositional? || r.error.MultipleValues?
    decreases n - i
  {
    if i == n then Pass
    else if i >= |s.positional| then (if s.varArgs then Pass else Fail(TooManyPositional))
    else if s.positional[i].name in keys then Fail(MultipleValues(s.positional[i].name))
    else BindPositional(s, i + 1, n, keys)
  }

  /** Second phase: every parameter still unbound needs a keyword or a default. */
  function FirstMissing(ps: seq<Param>, keys: seq<string>): (r: Outcome<BindError>)
    ensures r == Pass <==> forall j :: 0 <= j < |ps| ==> ps[j].name in keys || ps[j].hasDefault
    ensures r.Fail? ==> r.error.MissingArgument?
    ensures r.Fail? ==>
      exists j :: 0 <= j < |ps| && ps[j].name == r.error.name && !ps[j].hasDefault && r.error.name !in keys
  {
    if ps == [] then Pass
    else if ps[0].name !in keys && !ps[0].hasDefault then Fail(MissingArgument(ps[0].name))
    else
      var r := FirstMissing(ps[1..], keys);
      assert forall j :: 1 <= j < |ps| ==> ps[j] == ps[1..][j - 1];
      r
  }

  /** Third phase, without `**kwargs`: the first keyword that named no unbound parameter. */
  function FirstUnexpected(keys: seq<string>, accepted: set<string>): (r: Outcome<BindError>)
    ensures r == Pass <==> forall k :: k in keys ==> k in accepted
    ensures r.Fail? ==> r.error.UnexpectedKeyword? && r.error.name in keys && r.error.name !in accepted
  {
    if keys == [] then Pass
    else if keys[0] !in accepted then Fail(UnexpectedKeyword(keys[0]))
    else
      var r := FirstUnexpected(keys[1..], accepted);
      assert forall k :: k in keys ==> k == keys[0] || k in keys[1..];
      r
  }

  /** Which calls bind, stated without reference to the order in which the check proceeds. */
  predicate Accepts(s: Schema, n: nat, keys: seq<string>) {
    var pos := s.positional;
    // no positional argument is left over, unless there is `*args`
    && (n <= |pos| || s.varArgs)
    // no parameter gets both a positional argument and a keyword
    && (forall j :: 0 <= j < |pos| && j < n ==> pos[j].name !in keys)
    // every parameter without a positional argument has a keyword or a default
    && (forall j :: n <= j < |pos| ==> pos[j].name in keys || pos[j].hasDefault)
    && (forall j :: 0 <= j < |s.keywordOnly| ==> s.keywordOnly[j].name in keys || s.keywordOnly[j].hasDefault)
    // every keyword names a parameter without a positional argument, unless there is `**kwargs`
    && (s.varKeywords || forall k :: k in keys ==>
          (exists j :: n <= j < |pos| && pos[j].name == k) || k in Names(s.keywordOnly))
  }

  /**
   * `inspect.Signature.bind`: passes exactly on the calls `Accepts` describes, and on failure
   * names an offence the call really commits.
   */
  function Bind(s: Schema, args: seq<Value>, kwargs: Kwargs): (r: Outcome<BindError>)
    ensures r == Pass <==> Accepts(s, |args|, KeyList(kwargs))
    ensures r == Fail(TooManyPositional) ==> |s.positional| < |args| && !s.varArgs
    ensures r.Fail? && r.error.MultipleValues? ==>
      exists j :: 0 <= j < |args| && j < |s.positional| && s.positional[j].name == r.error.name
        && r.error.name in KeyList(kwargs)
    ensures r.Fail? && r.error.MissingArgument? ==>
      exists p :: p in Unbound(s, |args|) && p.name == r.error.name && !p.hasDefault
        && r.error.name !in KeyList(kwargs)
    ensures r.Fail? && r.error.UnexpectedKeyword? ==>
      !s.varKeywords && r.error.name in KeyList(kwargs) && r.error.name !in Names(Unbound(s, |args|))
  {
    var n, keys := |args|, KeyList(kwargs);
    UnboundSplit(s, n, keys);
    match BindPositional(s, 0, n, keys)
    case Fail(e) => Fail(e)
    case Pass =>
      var rest := Unbound(s, n);
      match FirstMissing(rest, keys)
      case Fail(e) => Fail(e)
      case Pass =>
        if s.varKeywords then Pass else FirstUnexpected(keys, Names(rest))
  }

  /** The unbound parameters are the positional ones from `n` on, then the keyword-only ones. */
  lemma UnboundSplit(s: Schema, n: nat, keys: seq<string>)
    ensures forall k :: k in Names(Unbound(s, n)) <==>
      (exists j :: n <= j < |s.positional| && s.positional[j].name == k) || k in Names(s.keywordOnly)
    ensures (forall j :: 0 <= j < |Unbound(s, n)| ==> Unbound(s, n)[j].name in keys || Unbound(s, n)[j].hasDefault)
      <==> && (forall j :: n <= j < |s.positional| ==> s.positional[j].name in keys || s.positional[j].hasDefault)
           && (forall j :: 0 <= j < |s.keywordOnly| ==> s.keywordOnly[j].name in keys || s.keywordOnly[j].hasDefault)
  {
    var u, pos, kw, m := Unbound(s, n), s.positional, s.keywordOnly, Min(n, |s.positional|);
    assert |u| == |pos| - m + |kw|;
    forall k | k in Names(u)
      ensures (exists j :: n <= j < |pos| && pos[j].name == k) || k in Names(kw)
    {
      var j :| 0 <= j < |u| && u[j].name == k;
      if j < |pos| - m {
        assert pos[m + j].name == k;
      } else {
        assert kw[j - (|pos| - m)].name == k;
      }
    }
    forall k | (exists j :: n <= j < |pos| && pos[j].name == k) || k in Names(kw)
      ensures k in Names(u)
    {
      if j :| n <= j < |pos| && pos[j].name == k {
        assert u[j - m].name == k;
      } else {
        var j :| 0 <= j < |kw| && kw[j].name == k;
        assert u[|pos| - m + j].name == k;
      }
    }
    if forall j :: 0 <= j < |u| ==> u[j].name in keys || u[j].hasDefault {
      forall j | n <= j < |pos| ensures pos[j].name in keys || pos[j].hasDefault {
        assert u[j - m] == pos[j];
      }
      forall j | 0 <= j < |kw| ensures kw[j].name in keys || kw[j].hasDefault {
        assert u[|pos| - m + j] == kw[j];
      }
    }
  }
}
