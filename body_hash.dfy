/** Request-body hashing for the response cache: the 16-byte MD5 digest,
    its lower-case hexadecimal form (the RFC 4648 section 8 alphabet in
    lower case), and the choice between canonical JSON bytes and raw bytes
    as the digest's input (backend/src/services/response_cache.rs and
    backend/src/utils/request_body_hash.rs, which share the encoder). */
module BodyHash {
  import opened Wrappers
  import opened Text
  import opened Json

  /** `RequestBodyHash = [u8; 16]`. */
  type Digest = d: seq<byte> | |d| == 16 witness seq(16, _ => 0)

  /** `md5::compute(bytes).0`, which the model does not look inside. */
  type Md5 = seq<byte> -> Digest

  const HexDigits: string := "0123456789abcdef"

  predicate IsLowerHex(c: char) {
    ('0' <= c <= '9') || ('a' <= c <= 'f')
  }

  /** `HEX[n]`. */
  function HexChar(n: int): (c: char)
    requires 0 <= n < 16
    ensures IsLowerHex(c)
  {
    HexDigits[n]
  }

  /** The value of a lower-case hex digit. */
  function HexValue(c: char): (n: int)
    requires IsLowerHex(c)
    ensures 0 <= n < 16
  {
    if c <= '9' then c as int - '0' as int else c as int - 'a' as int + 10
  }

  lemma HexValueOfChar(n: int)
    requires 0 <= n < 16
    ensures HexValue(HexChar(n)) == n
  {
    assert HexDigits == ['0','1','2','3','4','5','6','7','8','9','a','b','c','d','e','f'];
  }

  /** Two characters per byte, high nibble first. */
  function Hex(bytes: seq<byte>): (r: string)
    ensures |r| == 2 * |bytes|
  {
    if |bytes| == 0 then ""
    else Hex(bytes[..|bytes| - 1]) + [HexChar(bytes[|bytes| - 1] as int / 16), HexChar(bytes[|bytes| - 1] as int % 16)]
  }

  /** `request_body_hash_hex`: two characters pushed per byte. */
  method RequestBodyHashHex(hash: Digest) returns (out: string)
    ensures out == Hex(hash)
  {
    out := "";
    var i := 0;
    while i < |hash|
      invariant 0 <= i <= |hash|
      invariant out == Hex(hash[..i])
    {
      assert hash[..i + 1][..i] == hash[..i];
      var byte := hash[i];
      out := out + [HexChar(byte as int / 16)];
      out := out + [HexChar(byte as int % 16)];
      i := i + 1;
    }
    assert hash[..|hash|] == hash;
  }

  /** Byte `i` is written at positions `2i` (high nibble) and `2i + 1` (low
      nibble), in lower-case hex. */
  lemma {:induction false} HexLayout(bytes: seq<byte>, i: nat)
    requires i < |bytes|
    ensures Hex(bytes)[2 * i] == HexChar(bytes[i] as int / 16)
    ensures Hex(bytes)[2 * i + 1] == HexChar(bytes[i] as int % 16)
    decreases |bytes|
  {
    if i < |bytes| - 1 {
      var init := bytes[..|bytes| - 1];
      HexLayout(init, i);
      assert init[i] == bytes[i];
    }
  }

  /** A digest is written as 32 lower-case hex characters. */
  lemma HexOfDigest(hash: Digest)
    ensures |Hex(hash)| == 32
    ensures forall k :: 0 <= k < 32 ==> IsLowerHex(Hex(hash)[k])
  {
    forall k | 0 <= k < 32
      ensures IsLowerHex(Hex(hash)[k])
    {
      HexLayout(hash, k / 2);
      assert k == 2 * (k / 2) || k == 2 * (k / 2) + 1;
    }
  }

  /** Reading the hex back: every byte is recovered from its two digits, so
      distinct digests have distinct hex forms. */
  lemma HexDecodes(bytes: seq<byte>, i: nat)
    requires i < |bytes|
    ensures IsLowerHex(Hex(bytes)[2 * i]) && IsLowerHex(Hex(bytes)[2 * i + 1])
    ensures HexValue(Hex(bytes)[2 * i]) * 16 + HexValue(Hex(bytes)[2 * i + 1]) == bytes[i] as int
  {
    HexLayout(bytes, i);
    HexValueOfChar(bytes[i] as int / 16);
    HexValueOfChar(bytes[i] as int % 16);
  }

  lemma HexInjective(a: Digest, b: Digest)
    requires Hex(a) == Hex(b)
    ensures a == b
  {
    forall i | 0 <= i < 16
      ensures a[i] == b[i]
    {
      HexDecodes(a, i);
      HexDecodes(b, i);
    }
  }

  /** `canonical_json_bytes`: the body re-serialized compactly when it
      parses as JSON. */
  function CanonicalJsonBytes(codec: Codec, body: seq<byte>): (r: Option<seq<byte>>)
    ensures r.None? <==> codec.parseBytes(body).None?
    ensures r.Some? ==> r.value == codec.compact(codec.parseBytes(body).value)
  {
    match codec.parseBytes(body)
    case Some(v) => Some(codec.compact(v))
    case None => None
  }

  /** `hash_request_body` of utils/request_body_hash.rs: the digest of the
      canonical bytes of a JSON body, of the raw bytes otherwise. */
  function HashRequestBody(codec: Codec, md5: Md5, body: seq<byte>): Digest {
    match CanonicalJsonBytes(codec, body)
    case Some(bytes) => md5(bytes)
    case None => md5(body)
  }

  /** `hash_request_body_hex`. */
  function HashRequestBodyHex(codec: Codec, md5: Md5, body: seq<byte>): (r: string)
    ensures |r| == 32 && forall k :: 0 <= k < 32 ==> IsLowerHex(r[k])
  {
    HexOfDigest(HashRequestBody(codec, md5, body));
    Hex(HashRequestBody(codec, md5, body))
  }

  /** Bodies that parse to the same JSON value hash alike whatever their
      formatting; a body that is not JSON is hashed as it is. */
  lemma HashInputChoice(codec: Codec, md5: Md5, a: seq<byte>, b: seq<byte>)
    ensures codec.parseBytes(a).Some? && codec.parseBytes(a) == codec.parseBytes(b) ==>
              HashRequestBody(codec, md5, a) == HashRequestBody(codec, md5, b)
              && HashRequestBodyHex(codec, md5, a) == HashRequestBodyHex(codec, md5, b)
    ensures codec.parseBytes(a).None? ==> HashRequestBody(codec, md5, a) == md5(a)
    ensures codec.parseBytes(a).Some? ==> HashRequestBody(codec, md5, a) == md5(codec.compact(codec.parseBytes(a).value))
  {
  }

  /** The key of the in-memory response cache; services/response_cache.rs
      digests the raw body bytes. */
  datatype ResponseCacheKey = ResponseCacheKey(requestBodyHash: Digest)

  /** `ResponseCacheKey::new`. */
  function NewCacheKey(md5: Md5, requestBody: seq<byte>): (k: ResponseCacheKey)
    ensures k.requestBodyHash == md5(requestBody)
  {
    ResponseCacheKey(md5(requestBody))
  }

  /** Keys and their hex forms are equal exactly when the digests are. */
  lemma CacheKeyHexFaithful(md5: Md5, a: seq<byte>, b: seq<byte>)
    ensures Hex(NewCacheKey(md5, a).requestBodyHash) == Hex(NewCacheKey(md5, b).requestBodyHash)
            <==> NewCacheKey(md5, a) == NewCacheKey(md5, b)
  {
    if Hex(NewCacheKey(md5, a).requestBodyHash) == Hex(NewCacheKey(md5, b).requestBodyHash) {
      HexInjective(md5(a), md5(b));
    }
  }
}
