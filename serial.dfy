/**
 * Serialization of call envelopes to bytes and back: the role `pickle.dumps` and
 * `pickle.loads` play in cloud_functions_dispatch/f.py. The byte layout is this model's own
 * (a tag byte per value, lengths and counts as base-128 varints, characters as code points);
 * what the dispatcher relies on, and what is proved here, is that decoding inverts encoding.
 */
module Serial {
  import opened Wrappers
  import opened Values

  const TagNone: Byte := 0
  const TagFalse: Byte := 1
  const TagTrue: Byte := 2
  const TagNonNegative: Byte := 3
  const TagNegative: Byte := 4
  const TagStr: Byte := 5
  const TagList: Byte := 6
  const TagDict: Byte := 7
  const TagEnvelope: Byte := 8

  /** What a partial decoder returns: the decoded item and the bytes after it. */
  type Decoded<T> = Option<(T, seq<Byte>)>

  /** Decoding consumed at least one byte of `bs` and left `rest`. */
  predicate Consumed(bs: seq<Byte>, rest: seq<Byte>) {
    |rest| < |bs|
  }

  // ---------------------------------------------------------------- natural numbers

  /** Little-endian base 128; every byte but the last has its high bit set. */
  function EncodeNat(n: nat): (bs: seq<Byte>)
    decreases n
  {
    if n < 128 then [n] else [128 + n % 128] + EncodeNat(n / 128)
  }

  function DecodeNat(bs: seq<Byte>): (r: Decoded<nat>)
    ensures r.Some? ==> Consumed(bs, r.value.1)
    decreases |bs|
  {
    if |bs| == 0 then None
    else if bs[0] < 128 then Some((bs[0], bs[1..]))
    else
      match DecodeNat(bs[1..])
      case None => None
      case Some((m, rest)) => Some((bs[0] - 128 + 128 * m, rest))
  }

  // ---------------------------------------------------------------- strings

  /** The Unicode scalar value `n`, if there is one. */
  function CharOf(n: nat): (c: Option<char>)
    ensures c.Some? ==> c.value as int == n
  {
    if n < 0xD800 || 0xE000 <= n < 0x11_0000 then Some(n as char) else None
  }

  function EncodeChars(s: string): seq<Byte> {
    if s == [] then [] else EncodeNat(s[0] as int) + EncodeChars(s[1..])
  }

  function DecodeChars(count: nat, bs: seq<Byte>): (r: Decoded<string>)
    ensures r.Some? ==> |r.value.0| == count && (count > 0 ==> Consumed(bs, r.value.1))
    ensures r.Some? && count == 0 ==> r.value.1 == bs
    decreases count
  {
    if count == 0 then Some(([], bs))
    else
      match DecodeNat(bs)
      case None => None
      case Some((n, rest)) =>
        match CharOf(n)
        case None => None
        case Some(c) =>
          match DecodeChars(count - 1, rest)
          case None => None
          case Some((cs, rest')) => Some(([c] + cs, rest'))
  }

  /** A string: its length, then its characters. */
  function EncodeString(s: string): seq<Byte> {
    EncodeNat(|s|) + EncodeChars(s)
  }

  function DecodeString(bs: seq<Byte>): (r: Decoded<string>)
    ensures r.Some? ==> Consumed(bs, r.value.1)
  {
    match DecodeNat(bs)
    case None => None
    case Some((n, rest)) => DecodeChars(n, rest)
  }

  // ---------------------------------------------------------------- values

  function EncodeValue(v: Value): seq<Byte>
    requires Picklable(v)
    decreases v, 1
  {
    match v
    case PyNone => [TagNone]
    case Bool(b) => [if b then TagTrue else TagFalse]
    case Int(i) => if i >= 0 then [TagNonNegative] + EncodeNat(i) else [TagNegative] + EncodeNat(-i - 1)
    case Str(s) => [TagStr] + EncodeString(s)
    case List(items) => [TagList] + EncodeNat(|items|) + EncodeValues(items)
    case Dict(entries) => [TagDict] + EncodeNat(|entries|) + EncodeEntries(entries)
  }

  function EncodeValues(vs: seq<Value>): seq<Byte>
    requires AllPicklable(vs)
    decreases vs, 0
  {
    if vs == [] then [] else EncodeValue(vs[0]) + EncodeValues(vs[1..])
  }

  function EncodeEntries(es: seq<(string, Value)>): seq<Byte>
    requires KwargsPicklable(es)
    decreases es, 0
  {
    if es == [] then []
    else
      var (k, v) := es[0];
      assert v < es[0];
      EncodeString(k) + EncodeValue(v) + EncodeEntries(es[1..])
  }

  /** Decodes one value; whatever it returns is picklable again. */
  function DecodeValue(bs: seq<Byte>): (r: Decoded<Value>)
    ensures r.Some? ==> Consumed(bs, r.value.1) && Picklable(r.value.0)
    decreases |bs|, 0
  {
    if |bs| == 0 then None
    else
      var tag, body := bs[0], bs[1..];
      if tag == TagNone then Some((PyNone, body))
      else if tag == TagFalse then Some((Bool(false), body))
      else if tag == TagTrue then Some((Bool(true), body))
      else if tag == TagNonNegative || tag == TagNegative then
        match DecodeNat(body)
        case None => None
        case Some((n, rest)) => Some((Int(if tag == TagNonNegative then n as int else -(n as int) - 1), rest))
      else if tag == TagStr then
        match DecodeString(body)
        case None => None
        case Some((s, rest)) => Some((Str(s), rest))
      else if tag == TagList then
        match DecodeNat(body)
        case None => None
        case Some((n, rest)) =>
          match DecodeValues(n, rest)
          case None => None
          case Some((items, rest')) => Some((List(items), rest'))
      else if tag == TagDict then
        match DecodeNat(body)
        case None => None
        case Some((n, rest)) =>
          match DecodeEntries(n, rest)
          case None => None
          case Some((entries, rest')) => Some((Dict(entries), rest'))
      else None
  }

  /** Decodes `count` values, one after the other. */
  function DecodeValues(count: nat, bs: seq<Byte>): (r: Decoded<seq<Value>>)
    ensures r.Some? ==> |r.value.0| == count && AllPicklable(r.value.0)
    ensures r.Some? ==> |r.value.1| <= |bs|
    decreases |bs|, count
  {
    if count == 0 then Some(([], bs))
    else
      match DecodeValue(bs)
      case None => None
      case Some((v, rest)) =>
        match DecodeValues(count - 1, rest)
        case None => None
        case Some((vs, rest')) => Some(([v] + vs, rest'))
  }

  /** Decodes `count` (name, value) pairs. */
  function DecodeEntries(count: nat, bs: seq<Byte>): (r: Decoded<seq<(string, Value)>>)
    ensures r.Some? ==> |r.value.0| == count && KwargsPicklable(r.value.0)
    ensures r.Some? ==> |r.value.1| <= |bs|
    decreases |bs|, count
  {
    if count == 0 then Some(([], bs))
    else
      match DecodeString(bs)
      case None => None
      case Some((k, rest)) =>
        match DecodeValue(rest)
        case None => None
        case Some((v, rest')) =>
          match DecodeEntries(count - 1, rest')
          case None => None
          case Some((es, rest'')) => Some(([(k, v)] + es, rest''))
  }

  // ---------------------------------------------------------------- envelopes

  function EncodeEnvelope(e: Envelope): seq<Byte>
    requires e.Picklable()
  {
    [TagEnvelope] + EncodeString(e.name)
      + EncodeNat(|e.args|) + EncodeValues(e.args)
      + EncodeNat(|e.kwargs|) + EncodeEntries(e.kwargs)
  }

  /**
   * Decodes a whole payload. It fails on a wrong header, on malformed or trailing bytes, and
   * on a keyword given twice, so every envelope it returns can be replayed as a Python call.
   */
  function DecodeEnvelope(bs: seq<Byte>): (r: Option<Envelope>)
    ensures r.Some? ==> r.value.Representable()
  {
    if |bs| == 0 || bs[0] != TagEnvelope then None
    else
      match DecodeString(bs[1..])
      case None => None
      case Some((name, rest1)) =>
        match DecodeNat(rest1)
        case None => None
        case Some((n, rest2)) =>
          match DecodeValues(n, rest2)
          case None => None
          case Some((args, rest3)) =>
            match DecodeNat(rest3)
            case None => None
            case Some((m, rest4)) =>
              match DecodeEntries(m, rest4)
              case None => None
              case Some((kwargs, rest5)) =>
                if rest5 == [] && DistinctKeys(kwargs) then Some(Envelope(name, args, kwargs)) else None
  }

  // ---------------------------------------------------------------- round trips

  lemma {:induction false} NatRoundTrip(n: nat, rest: seq<Byte>)
    ensures DecodeNat(EncodeNat(n) + rest) == Some((n, rest))
    decreases n
  {
    if n >= 128 {
      var bs := EncodeNat(n) + rest;
      assert bs[1..] == EncodeNat(n / 128) + rest;
      NatRoundTrip(n / 128, rest);
    }
  }

  lemma {:induction false} CharsRoundTrip(s: string, rest: seq<Byte>)
    ensures DecodeChars(|s|, EncodeChars(s) + rest) == Some((s, rest))
    decreases s
  {
    if s != [] {
      var tail := EncodeChars(s[1..]) + rest;
      assert EncodeChars(s) + rest == EncodeNat(s[0] as int) + tail;
      NatRoundTrip(s[0] as int, tail);
      assert CharOf(s[0] as int) == Some(s[0]);
      CharsRoundTrip(s[1..], rest);
      assert DecodeChars(|s| - 1, tail) == Some((s[1..], rest));
      assert [s[0]] + s[1..] == s;
    } else {
      assert EncodeChars(s) + rest == rest;
    }
  }

  lemma StringRoundTrip(s: string, rest: seq<Byte>)
    ensures DecodeString(EncodeString(s) + rest) == Some((s, rest))
  {
    var tail := EncodeChars(s) + rest;
    assert EncodeString(s) + rest == EncodeNat(|s|) + tail;
    NatRoundTrip(|s|, tail);
    CharsRoundTrip(s, rest);
  }

  /** Decoding a value's encoding gives the value back and leaves what followed it. */
  lemma {:induction false} ValueRoundTrip(v: Value, rest: seq<Byte>)
    requires Picklable(v)
    ensures DecodeValue(EncodeValue(v) + rest) == Some((v, rest))
    decreases v, 2
  {
    match v
    case PyNone =>
    case Bool(b) =>
    case Int(i) => IntRoundTrip(i, rest);
    case Str(s) => StrRoundTrip(s, rest);
    case List(items) => ListRoundTrip(items, rest);
    case Dict(entries) => DictRoundTrip(entries, rest);
  }

  lemma IntRoundTrip(i: int, rest: seq<Byte>)
    ensures DecodeValue(EncodeValue(Int(i)) + rest) == Some((Int(i), rest))
  {
    var n: nat := if i >= 0 then i else -i - 1;
    assert (EncodeValue(Int(i)) + rest)[1..] == EncodeNat(n) + rest;
    NatRoundTrip(n, rest);
  }

  lemma StrRoundTrip(s: string, rest: seq<Byte>)
    ensures DecodeValue(EncodeValue(Str(s)) + rest) == Some((Str(s), rest))
  {
    assert (EncodeValue(Str(s)) + rest)[1..] == EncodeString(s) + rest;
    StringRoundTrip(s, rest);
  }

  lemma {:induction false} ListRoundTrip(items: seq<Value>, rest: seq<Byte>)
    requires AllPicklable(items)
    ensures Picklable(List(items))
    ensures DecodeValue(EncodeValue(List(items)) + rest) == Some((List(items), rest))
    decreases items, 1
  {
    var tail := EncodeValues(items) + rest;
    assert (EncodeValue(List(items)) + rest)[1..] == EncodeNat(|items|) + tail;
    NatRoundTrip(|items|, tail);
    ValuesRoundTrip(items, rest);
  }

  lemma {:induction false} DictRoundTrip(entries: seq<(string, Value)>, rest: seq<Byte>)
    requires KwargsPicklable(entries)
    ensures Picklable(Dict(entries))
    ensures DecodeValue(EncodeValue(Dict(entries)) + rest) == Some((Dict(entries), rest))
    decreases entries, 1
  {
    var tail := EncodeEntries(entries) + rest;
    assert (EncodeValue(Dict(entries)) + rest)[1..] == EncodeNat(|entries|) + tail;
    NatRoundTrip(|entries|, tail);
    EntriesRoundTrip(entries, rest);
  }

  lemma {:induction false} ValuesRoundTrip(vs: seq<Value>, rest: seq<Byte>)
    requires AllPicklable(vs)
    ensures DecodeValues(|vs|, EncodeValues(vs) + rest) == Some((vs, rest))
    decreases vs, 0
  {
    if vs != [] {
      var tail := EncodeValues(vs[1..]) + rest;
      assert EncodeValues(vs) + rest == EncodeValue(vs[0]) + tail;
      ValueRoundTrip(vs[0], tail);
      ValuesRoundTrip(vs[1..], rest);
      assert DecodeValues(|vs| - 1, tail) == Some((vs[1..], rest));
      assert [vs[0]] + vs[1..] == vs;
    } else {
      assert EncodeValues(vs) + rest == rest;
    }
  }

  lemma {:induction false} EntriesRoundTrip(es: seq<(string, Value)>, rest: seq<Byte>)
    requires KwargsPicklable(es)
    ensures DecodeEntries(|es|, EncodeEntries(es) + rest) == Some((es, rest))
    decreases es, 0
  {
    if es != [] {
      var (k, v) := es[0];
      assert v < es[0];
      var tail := EncodeEntries(es[1..]) + rest;
      assert EncodeEntries(es) + rest == EncodeString(k) + (EncodeValue(v) + tail);
      StringRoundTrip(k, EncodeValue(v) + tail);
      ValueRoundTrip(v, tail);
      EntriesRoundTrip(es[1..], rest);
      assert DecodeEntries(|es| - 1, tail) == Some((es[1..], rest));
      assert [(k, v)] + es[1..] == es;
    } else {
      assert EncodeEntries(es) + rest == rest;
    }
  }

  /** An envelope Python can build survives serialization unchanged. */
  lemma EnvelopeRoundTrip(e: Envelope)
    requires e.Representable()
    ensures DecodeEnvelope(EncodeEnvelope(e)) == Some(e)
  {
    var t4 := EncodeEntries(e.kwargs);
    var t3 := EncodeNat(|e.kwargs|) + t4;
    var t2 := EncodeValues(e.args) + t3;
    var t1 := EncodeNat(|e.args|) + t2;
    assert EncodeEnvelope(e)[1..] == EncodeString(e.name) + t1;
    StringRoundTrip(e.name, t1);
    NatRoundTrip(|e.args|, t2);
    ValuesRoundTrip(e.args, t3);
    NatRoundTrip(|e.kwargs|, t4);
    assert t4 == t4 + [];
    EntriesRoundTrip(e.kwargs, []);
  }
}
