/** Hex encoding and the chunked hashing of a file. */
module FileHash {
  import opened Domain
  import opened Seqs

  // Lower-case hex digits.
  const HEX_DIGITS: Text := [48, 49, 50, 51, 52, 53, 54, 55, 56, 57, 97, 98, 99, 100, 101, 102]

  function HexPair(b: byte): Text {
    [HEX_DIGITS[b as int / 16], HEX_DIGITS[b as int % 16]]
  }

  function LowerHex(bytes: Bytes): (t: Text)
    ensures |t| == 2 * |bytes|
  {
    if bytes == [] then [] else LowerHex(bytes[..|bytes| - 1]) + HexPair(bytes[|bytes| - 1])
  }

  method ToLowerHex(bytes: Bytes) returns (encoded: Text)
    ensures encoded == LowerHex(bytes)
  {
    encoded := [];
    for i := 0 to |bytes|
      invariant encoded == LowerHex(bytes[..i])
    {
      var b := bytes[i];
      assert bytes[..i + 1][..i] == bytes[..i];
      encoded := encoded + [HEX_DIGITS[b as int / 16]];
      encoded := encoded + [HEX_DIGITS[b as int % 16]];
    }
    assert bytes[..|bytes|] == bytes;
  }

  function HexValue(c: byte): nat {
    if c >= 97 then c as nat - 87 else if c >= 48 then c as nat - 48 else 0
  }

  predicate IsLowerDigit(c: byte) {
    48 <= c <= 57 || 97 <= c <= 102
  }

  lemma DigitReadsBack(i: nat)
    requires i < 16
    ensures HexValue(HEX_DIGITS[i]) == i && IsLowerDigit(HEX_DIGITS[i])
  {}

  /** Two lower-case digits, the higher one first, that read back as the byte. */
  lemma HexPairReadsBack(b: byte)
    ensures HexValue(HexPair(b)[0]) * 16 + HexValue(HexPair(b)[1]) == b as nat
    ensures IsLowerDigit(HexPair(b)[0]) && IsLowerDigit(HexPair(b)[1])
  {
    DigitReadsBack(b as nat / 16);
    DigitReadsBack(b as nat % 16);
  }

  /** Byte by byte the text reads back as the bytes. */
  lemma {:induction false} LowerHexReadsBack(bytes: Bytes, k: nat)
    requires k < |bytes|
    ensures HexValue(LowerHex(bytes)[2 * k]) * 16 + HexValue(LowerHex(bytes)[2 * k + 1]) == bytes[k] as nat
  {
    var n := |bytes| - 1;
    if k < n {
      LowerHexReadsBack(bytes[..n], k);
    } else {
      HexPairReadsBack(bytes[n]);
    }
  }

  lemma HexPairInjective(a: byte, b: byte)
    requires HexPair(a) == HexPair(b)
    ensures a == b
  {
    HexPairReadsBack(a);
    HexPairReadsBack(b);
  }

  lemma {:induction false} LowerHexInjective(a: Bytes, b: Bytes)
    requires LowerHex(a) == LowerHex(b)
    ensures a == b
  {
    if a == [] || b == [] {
    } else {
      var a', b' := a[..|a| - 1], b[..|b| - 1];
      var n := |LowerHex(a)| - 2;
      assert LowerHex(a)[..n] == LowerHex(a') && LowerHex(b)[..n] == LowerHex(b');
      assert LowerHex(a)[n..] == HexPair(a[|a| - 1]) && LowerHex(b)[n..] == HexPair(b[|b| - 1]);
      LowerHexInjective(a', b');
      HexPairInjective(a[|a| - 1], b[|b| - 1]);
      assert a == a' + [a[|a| - 1]];
    }
  }

  /** Hex text inherits the collision freedom of the digest. */
  lemma HexDigestInjective(digest: Bytes -> Bytes)
    requires forall a, b :: digest(a) == digest(b) ==> a == b
    ensures Injective((b: Bytes) => LowerHex(digest(b)))
  {
    forall a: Bytes, b: Bytes | LowerHex(digest(a)) == LowerHex(digest(b))
      ensures a == b
    {
      LowerHexInjective(digest(a), digest(b));
    }
  }

  // ---------- hashing a file in chunks ----------

  /** What the reads of a file add up to, up to the first empty one; nothing if one fails first. */
  function ReadToEnd(sofar: Bytes, input: seq<Option<Bytes>>): Option<Bytes>
    decreases input
  {
    if input == [] || input[0] == Some([]) then Some(sofar)
    else if input[0].None? then None
    else ReadToEnd(sofar + input[0].value, input[1..])
  }

  /** Streaming digest of a whole file; `None` is an I/O error. */
  method FullSha256(digest: Bytes -> Bytes, opens: bool, input: seq<Option<Bytes>>) returns (r: Option<Text>)
    ensures r == if !opens || ReadToEnd([], input).None? then None
                 else Some(LowerHex(digest(ReadToEnd([], input).value)))
  {
    if !opens {
      return None;
    }
    var hashed: Bytes := [];
    var i := 0;
    while i < |input| && input[i] != Some([])
      invariant 0 <= i <= |input|
      invariant ReadToEnd([], input) == ReadToEnd(hashed, input[i..])
    {
      assert input[i..][0] == input[i] && input[i..][1..] == input[i + 1..];
      if input[i].None? {
        return None;
      }
      hashed := hashed + input[i].value;
      i := i + 1;
    }
    assert i < |input| ==> input[i..][0] == input[i];
    var hex := ToLowerHex(digest(hashed));
    r := Some(hex);
  }

  /** A read that fails before the end of the file leaves no digest. */
  lemma {:induction false} FailedReadGivesNothing(sofar: Bytes, input: seq<Option<Bytes>>, k: nat)
    requires k < |input| && input[k].None?
    requires forall j :: 0 <= j < k ==> input[j].Some? && input[j] != Some([])
    ensures ReadToEnd(sofar, input).None?
    decreases k
  {
    if k > 0 {
      FailedReadGivesNothing(sofar + input[0].value, input[1..], k - 1);
    }
  }

  /** However the operating system cuts a file into reads, the whole content is hashed. */
  lemma {:induction false} ChunkingDoesNotMatter(sofar: Bytes, chunks: seq<Bytes>, input: seq<Option<Bytes>>)
    requires forall i :: 0 <= i < |chunks| ==> chunks[i] != []
    requires |input| == |chunks| + 1 && input[|chunks|] == Some([])
    requires forall i :: 0 <= i < |chunks| ==> input[i] == Some(chunks[i])
    ensures ReadToEnd(sofar, input) == Some(sofar + Flatten(chunks))
    decreases |chunks|
  {
    if chunks == [] {
      assert sofar + [] == sofar;
    } else {
      ChunkingDoesNotMatter(sofar + chunks[0], chunks[1..], input[1..]);
      assert input[0] == Some(chunks[0]);
      FlattenCons(chunks[0], chunks[1..]);
      assert [chunks[0]] + chunks[1..] == chunks;
      assert sofar + chunks[0] + Flatten(chunks[1..]) == sofar + Flatten(chunks);
    }
  }

  /** What a read that gets up to `n` bytes returns. */
  function FirstBytes(b: Bytes, n: nat): Bytes {
    if n <= |b| then b[..n] else b
  }

  /** The quick hash: the digest of exactly what the first read returned. */
  function QuickDigest(sha: Bytes -> Text, content: Bytes, n: nat): Text {
    sha(FirstBytes(content, n))
  }

  /**
   * Digest of the first block: one read into a buffer of that size, of whatever length it returns;
   * without a length it is an I/O error.
   */
  method QuickSha256(digest: Bytes -> Bytes, opens: bool, content: Bytes, got: Option<nat>, blockSize: nat)
    returns (r: Option<Text>)
    requires got.Some? ==> got.value <= blockSize
    ensures r == if opens && got.Some? then Some(QuickDigest(b => LowerHex(digest(b)), content, got.value)) else None
  {
    if !opens || got.None? {
      return None;
    }
    var read := FirstBytes(content, got.value);
    var buffer: Bytes := seq(blockSize, i => 0);
    buffer := read + buffer[|read|..];
    buffer := buffer[..|read|];
    var hex := ToLowerHex(digest(buffer));
    r := Some(hex);
  }
}
