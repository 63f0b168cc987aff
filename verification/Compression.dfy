/** Optional payload compression over an opaque zstd encoder/decoder pair. */
module Compression {
  import opened Bytes

  const MIN_COMPRESS_SIZE := 1024

  /** `zstd::encode_all` and `zstd::decode_all`; either may fail. */
  datatype Zstd = Zstd(encode: bytes -> Option<bytes>, decode: bytes -> Option<bytes>)

  /** What is assumed of zstd: a produced frame is not empty and decodes to its input. */
  ghost predicate Lossless(z: Zstd) {
    forall x: bytes {:trigger z.encode(x)} ::
      z.encode(x).Some? ==> |z.encode(x).value| > 0 && z.decode(z.encode(x).value) == Some(x)
  }

  datatype CompressionResult = CompressionResult(data: bytes, isCompressed: bool)

  /** Small or incompressible data is sent as it is; of data of 1024 bytes and more the shorter form is sent. */
  function CompressData(z: Zstd, data: bytes): (r: CompressionResult)
    ensures if r.isCompressed then MIN_COMPRESS_SIZE <= |data| && |r.data| < |data| else r.data == data
    ensures |data| >= 1024 && z.encode(data).Some? ==> |r.data| <= |z.encode(data).value|
    ensures r.isCompressed ==> z.encode(data) == Some(r.data)
  {
    if |data| < MIN_COMPRESS_SIZE then CompressionResult(data, false)
    else
      match z.encode(data)
      case Some(compressed) =>
        if |compressed| < |data| then CompressionResult(compressed, true) else CompressionResult(data, false)
      case None => CompressionResult(data, false)
  }

  function DecompressData(z: Zstd, data: bytes, isCompressed: bool): Option<bytes> {
    if !isCompressed then Some(data) else z.decode(data)
  }

  /** Compression is transparent: decoding with the flag the encoder chose gives the input back. */
  lemma CompressRoundTrip(z: Zstd, data: bytes)
    requires Lossless(z)
    ensures var r := CompressData(z, data); DecompressData(z, r.data, r.isCompressed) == Some(data)
    ensures data != [] ==> CompressData(z, data).data != []
  {
  }
}
