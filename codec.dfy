/**
 * `_pack` and `_unpack` of cloud_functions_dispatch/f.py: serialize an envelope, then
 * compress it; decompress, then deserialize. Compression (gzip, RFC 1952) is not modelled
 * byte for byte: a `Compressor` is any pair of functions, and the one property the dispatcher
 * needs of gzip, that decompression undoes compression, is the hypothesis `Lossless`.
 */
module Codec {
  import opened Wrappers
  import opened Values
  import Serial

  datatype Compressor = Compressor(
    compress: seq<Byte> -> seq<Byte>,
    decompress: seq<Byte> -> Option<seq<Byte>>)

  /** Decompression undoes compression, for every payload. */
  ghost predicate Lossless(c: Compressor) {
    forall data: seq<Byte> {:trigger c.compress(data)} :: c.decompress(c.compress(data)) == Some(data)
  }

  /** What `pickle` and `gzip` raise: an argument that cannot be pickled, a payload that is not
      a gzip archive, an archive whose contents are not a serialized envelope. */
  datatype CodecError = PicklingError | BadGzipFile | UnpicklingError

  /** `_pack`: fails exactly when some argument cannot be serialized. */
  function Pack(c: Compressor, e: Envelope): (r: Result<seq<Byte>, CodecError>)
    ensures r.Failure? <==> !e.Picklable()
    ensures r.Failure? ==> r.error == PicklingError
  {
    if e.Picklable() then Success(c.compress(Serial.EncodeEnvelope(e))) else Failure(PicklingError)
  }

  /** `_unpack`: whatever it returns could have been built by a Python call. */
  function Unpack(c: Compressor, data: seq<Byte>): (r: Result<Envelope, CodecError>)
    ensures r.Success? ==> r.value.Representable()
  {
    match c.decompress(data)
    case None => Failure(BadGzipFile)
    case Some(raw) =>
      match Serial.DecodeEnvelope(raw)
      case None => Failure(UnpicklingError)
      case Some(e) => Success(e)
  }

  /** `_unpack(_pack(e)) == e` for every envelope a call can produce. */
  lemma PackUnpack(c: Compressor, e: Envelope)
    requires Lossless(c)
    requires e.Representable()
    ensures Pack(c, e).Success? && Unpack(c, Pack(c, e).value) == Success(e)
  {
    var raw := Serial.EncodeEnvelope(e);
    assert c.decompress(c.compress(raw)) == Some(raw);
    Serial.EnvelopeRoundTrip(e);
  }
}
