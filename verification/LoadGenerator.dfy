/** The load generator's object bodies (one stream, a raw file, or a multipart upload) and its percent-encoding. */
module LoadGenerator {
  import opened Arithmetic
  import opened ByteOrder
  import opened Common

  const STREAM_CHUNK_BYTES: nat := 1024 * 1024
  const MULTIPART_PART_BYTES: nat := 256 * 1024 * 1024

  datatype Profile = Incompressible | Compressible2x | Compressible4x | Compressible10x | Compressible20x

  /** The bytes of one chunk, given seed, chunk index, length and payload profile. */
  type Generator = (u64, nat, nat, Profile) -> Text

  ghost predicate Sound(gen: Generator) {
    forall seed: u64, index: nat, size: nat, profile: Profile :: |gen(seed, index, size, profile)| == size
  }

  // ---- Bodies ----

  /** The streamed body: chunks from index `first` on, all full but possibly the last. */
  function BodyAt(gen: Generator, size: nat, seed: u64, first: nat, profile: Profile): Text
    decreases size
  {
    if size == 0 then []
    else
      var take := Min(size, STREAM_CHUNK_BYTES);
      gen(seed, first, take, profile) + BodyAt(gen, size - take, seed, first + 1, profile)
  }

  lemma {:induction false} BodyLength(gen: Generator, size: nat, seed: u64, first: nat, profile: Profile)
    requires Sound(gen)
    ensures |BodyAt(gen, size, seed, first, profile)| == size
    decreases size
  {
    if size > 0 {
      BodyLength(gen, size - Min(size, STREAM_CHUNK_BYTES), seed, first + 1, profile);
    }
  }

  /** A body can be cut after any whole number of chunks, if the second piece continues the chunk numbering. */
  lemma {:induction false} BodySplit(gen: Generator, chunks: nat, rest: nat, seed: u64, first: nat, profile: Profile)
    ensures BodyAt(gen, chunks * STREAM_CHUNK_BYTES + rest, seed, first, profile)
         == BodyAt(gen, chunks * STREAM_CHUNK_BYTES, seed, first, profile)
            + BodyAt(gen, rest, seed, first + chunks, profile)
    decreases chunks
  {
    if chunks > 0 {
      BodySplit(gen, chunks - 1, rest, seed, first + 1, profile);
    }
  }

  /** `write_generated`: the raw file holds exactly the streamed body. */
  method WriteGenerated(gen: Generator, size: nat, seed: u64, profile: Profile) returns (output: Text)
    ensures output == BodyAt(gen, size, seed, 0, profile)
  {
    output := [];
    var remaining, chunkIndex := size, 0;
    while remaining > 0
      invariant output + BodyAt(gen, remaining, seed, chunkIndex, profile) == BodyAt(gen, size, seed, 0, profile)
    {
      var take := Min(remaining, STREAM_CHUNK_BYTES);
      output := output + gen(seed, chunkIndex, take, profile);
      remaining := remaining - take;
      chunkIndex := chunkIndex + 1;
    }
  }

  datatype Part = Part(number: nat, offset: nat, body: Text, etag: string)

  function Joined(parts: seq<Part>): Text {
    if parts == [] then [] else Joined(parts[..|parts| - 1]) + parts[|parts| - 1].body
  }

  function PartCount(size: nat): nat { (size + MULTIPART_PART_BYTES - 1) / MULTIPART_PART_BYTES }

  function PartSize(size: nat, k: nat): nat {
    Min(SatSub(size, k * MULTIPART_PART_BYTES), MULTIPART_PART_BYTES)
  }

  datatype Upload = Completed(parts: seq<Part>) | Aborted(partNumber: nat)

  /** The k-th part (counting from 0) is numbered k + 1, starts where it should, streams its share of the chunks and
      was accepted. */
  predicate PartOk(
      gen: Generator, size: nat, seed: u64, profile: Profile, etag: nat -> Option<string>, part: Part, k: nat)
  {
    && part.number == k + 1 && part.offset == k * MULTIPART_PART_BYTES && etag(k + 1) == Some(part.etag)
    && part.body == BodyAt(gen, PartSize(size, k), seed, 256 * k, profile)
  }

  lemma WithinParts(size: nat, k: nat)
    requires k * MULTIPART_PART_BYTES < size
    ensures k < PartCount(size) && k * MULTIPART_PART_BYTES / STREAM_CHUNK_BYTES == 256 * k
  {
  }

  lemma OffsetStep(size: nat, k: nat)
    requires k * MULTIPART_PART_BYTES < size
    ensures Min(size, k * MULTIPART_PART_BYTES) == k * MULTIPART_PART_BYTES
    ensures Min(size, (k + 1) * MULTIPART_PART_BYTES) == k * MULTIPART_PART_BYTES + PartSize(size, k)
  {
  }

  lemma AllParts(size: nat, k: nat)
    requires size <= k * MULTIPART_PART_BYTES < size + MULTIPART_PART_BYTES
    ensures k == PartCount(size)
  {
  }

  /** Cutting a body at a part boundary: 256 chunks to a part. */
  lemma PartSplit(gen: Generator, k: nat, partSize: nat, seed: u64, profile: Profile)
    ensures BodyAt(gen, k * MULTIPART_PART_BYTES + partSize, seed, 0, profile)
         == BodyAt(gen, k * MULTIPART_PART_BYTES, seed, 0, profile) + BodyAt(gen, partSize, seed, 256 * k, profile)
  {
    BodySplit(gen, 256 * k, partSize, seed, 0, profile);
  }

  /** Accepted parts concatenate to the body streamed so far. */
  lemma {:induction false} PartsJoin(
      gen: Generator, size: nat, seed: u64, profile: Profile, etag: nat -> Option<string>, parts: seq<Part>)
    requires |parts| * MULTIPART_PART_BYTES < size + MULTIPART_PART_BYTES
    requires forall k :: 0 <= k < |parts| ==> PartOk(gen, size, seed, profile, etag, parts[k], k)
    ensures Joined(parts) == BodyAt(gen, Min(size, |parts| * MULTIPART_PART_BYTES), seed, 0, profile)
  {
    if parts != [] {
      var k := |parts| - 1;
      OffsetStep(size, k);
      PartsJoin(gen, size, seed, profile, etag, parts[..k]);
      assert PartOk(gen, size, seed, profile, etag, parts[k], k);
      PartSplit(gen, k, PartSize(size, k), seed, profile);
    }
  }

  /** The part loop of `multipart_put`. `etag(n)` is what the server answers to part n, None for a failed request.
      The upload completes exactly when every part was accepted. Then the parts are numbered 1, 2, ... up to
      ceil(size / 256 MiB) and concatenate to the single-stream body. */
  method MultipartPut(gen: Generator, size: nat, seed: u64, profile: Profile, etag: nat -> Option<string>)
      returns (r: Upload)
    ensures r.Completed? <==> forall n :: 1 <= n <= PartCount(size) ==> etag(n).Some?
    ensures r.Completed? ==> |r.parts| == PartCount(size)
    ensures r.Completed? ==>
              forall k :: 0 <= k < |r.parts| ==> PartOk(gen, size, seed, profile, etag, r.parts[k], k)
    ensures r.Completed? ==> Joined(r.parts) == BodyAt(gen, size, seed, 0, profile)
    ensures r.Aborted? ==> 1 <= r.partNumber <= PartCount(size) && etag(r.partNumber).None?
  {
    var parts: seq<Part> := [];
    var offset, partNumber := 0, 1;
    while offset < size
      invariant partNumber == |parts| + 1 && |parts| * MULTIPART_PART_BYTES < size + MULTIPART_PART_BYTES
      invariant offset == Min(size, |parts| * MULTIPART_PART_BYTES)
      invariant forall k :: 0 <= k < |parts| ==> PartOk(gen, size, seed, profile, etag, parts[k], k)
    {
      WithinParts(size, |parts|);
      var partSize := Min(size - offset, MULTIPART_PART_BYTES);
      var body := BodyAt(gen, partSize, seed, offset / STREAM_CHUNK_BYTES, profile);
      if etag(partNumber).None? {
        return Aborted(partNumber);
      }
      parts := parts + [Part(partNumber, offset, body, etag(partNumber).value)];
      offset := offset + partSize;
      partNumber := partNumber + 1;
    }
    AllParts(size, |parts|);
    PartsJoin(gen, size, seed, profile, etag, parts);
    forall n | 1 <= n <= PartCount(size)
      ensures etag(n).Some?
    {
      assert PartOk(gen, size, seed, profile, etag, parts[n - 1], n - 1);
    }
    r := Completed(parts);
  }

  function PartSizes(size: nat, n: nat): seq<nat> { seq(n, k requires 0 <= k < n => PartSize(size, k)) }

  lemma {:induction false} PartSizesSum(size: nat, n: nat)
    requires n * MULTIPART_PART_BYTES < size + MULTIPART_PART_BYTES
    ensures Sum(PartSizes(size, n)) == Min(size, n * MULTIPART_PART_BYTES)
  {
    if n > 0 {
      PartSizesSum(size, n - 1);
      assert PartSizes(size, n)[..n - 1] == PartSizes(size, n - 1);
    }
  }

  /** The bodies of the parts have the declared sizes, and those add up to the object size. */
  lemma PartSizeBounds(size: nat, k: nat)
    requires k < PartCount(size)
    ensures 0 < PartSize(size, k) <= MULTIPART_PART_BYTES
  {
  }

  lemma PartSizesCover(gen: Generator, size: nat, seed: u64, profile: Profile)
    requires Sound(gen)
    ensures Sum(PartSizes(size, PartCount(size))) == size
    ensures forall k :: 0 <= k < PartCount(size) ==>
              0 < |BodyAt(gen, PartSize(size, k), seed, 256 * k, profile)| == PartSize(size, k) <= MULTIPART_PART_BYTES
  {
    PartSizesSum(size, PartCount(size));
    forall k | 0 <= k < PartCount(size)
      ensures 0 < |BodyAt(gen, PartSize(size, k), seed, 256 * k, profile)| == PartSize(size, k) <= MULTIPART_PART_BYTES
    {
      BodyLength(gen, PartSize(size, k), seed, 256 * k, profile);
      PartSizeBounds(size, k);
    }
  }

  // ---- Percent-encoding ----

  /** The unreserved characters of section 2.3 of RFC 3986. */
  predicate Unreserved(c: char) {
    'A' <= c <= 'Z' || 'a' <= c <= 'z' || '0' <= c <= '9' || c in {'-', '_', '.', '~'}
  }

  predicate Verbatim(b: byte, preserveSlash: bool) {
    b < 128 && (Unreserved(b as char) || (preserveSlash && b as char == '/'))
  }

  function HexDigit(n: nat): char
    requires n < 16
  {
    if n < 10 then ('0' as int + n) as char else ('A' as int + n - 10) as char
  }

  function EncodeByte(b: byte, preserveSlash: bool): string {
    if Verbatim(b, preserveSlash) then [b as char] else ['%', HexDigit(b / 16), HexDigit(b % 16)]
  }

  function Encode(value: Text, preserveSlash: bool): string {
    if value == [] then "" else EncodeByte(value[0], preserveSlash) + Encode(value[1..], preserveSlash)
  }

  lemma {:induction false} EncodeAppend(a: Text, b: byte, preserveSlash: bool)
    ensures Encode(a + [b], preserveSlash) == Encode(a, preserveSlash) + EncodeByte(b, preserveSlash)
  {
    if a != [] {
      assert (a + [b])[1..] == a[1..] + [b];
      EncodeAppend(a[1..], b, preserveSlash);
    }
  }

  method AwsEncode(value: Text, preserveSlash: bool) returns (encoded: string)
    ensures encoded == Encode(value, preserveSlash)
  {
    encoded := "";
    for i := 0 to |value|
      invariant encoded == Encode(value[..i], preserveSlash)
    {
      var b := value[i];
      assert value[..i + 1] == value[..i] + [b];
      EncodeAppend(value[..i], b, preserveSlash);
      if Verbatim(b, preserveSlash) {
        encoded := encoded + [b as char];
      } else {
        encoded := encoded + ['%'];
        encoded := encoded + [HexDigit(b / 16), HexDigit(b % 16)];
      }
    }
    assert value[..|value|] == value;
  }

  predicate UpperHex(c: char) { '0' <= c <= '9' || 'A' <= c <= 'F' }

  function HexValue(c: char): (n: nat)
    requires UpperHex(c)
    ensures n < 16
  {
    if c <= '9' then c as int - '0' as int else c as int - 'A' as int + 10
  }

  /** Percent-decoding as section 2.1 of RFC 3986 defines it, for upper-case triplets. */
  function Decode(text: string): Option<Text> {
    if text == "" then Some([])
    else if text[0] == '%' then
      if |text| < 3 || !UpperHex(text[1]) || !UpperHex(text[2]) then None
      else
        var rest := Decode(text[3..]);
        if rest.None? then None else Some([HexValue(text[1]) * 16 + HexValue(text[2])] + rest.value)
    else if text[0] as int >= 128 then None
    else
      var rest := Decode(text[1..]);
      if rest.None? then None else Some([text[0] as int] + rest.value)
  }

  /** Only unreserved characters, upper-case percent triplets and, where slashes are preserved, slashes. */
  predicate InAlphabet(text: string, preserveSlash: bool) {
    text == ""
    || (text[0] == '%' && |text| >= 3 && UpperHex(text[1]) && UpperHex(text[2]) && InAlphabet(text[3..], preserveSlash))
    || ((Unreserved(text[0]) || (preserveSlash && text[0] == '/')) && InAlphabet(text[1..], preserveSlash))
  }

  lemma HexRoundTrip(n: nat)
    requires n < 16
    ensures UpperHex(HexDigit(n)) && HexValue(HexDigit(n)) == n
  {
  }

  lemma EncodeByteSplit(b: byte, rest: string, preserveSlash: bool)
    ensures var text := EncodeByte(b, preserveSlash) + rest;
            if Verbatim(b, preserveSlash) then |text| >= 1 && text[0] == b as char && text[1..] == rest
            else && |text| >= 3 && text[0] == '%' && text[1] == HexDigit(b / 16) && text[2] == HexDigit(b % 16)
                 && text[3..] == rest
  {
  }

  lemma ByteDecodes(b: byte, rest: string, preserveSlash: bool)
    requires Decode(rest).Some?
    ensures Decode(EncodeByte(b, preserveSlash) + rest) == Some([b] + Decode(rest).value)
  {
    EncodeByteSplit(b, rest, preserveSlash);
    HexRoundTrip(b / 16);
    HexRoundTrip(b % 16);
  }

  lemma ByteInAlphabet(b: byte, rest: string, preserveSlash: bool)
    requires InAlphabet(rest, preserveSlash)
    ensures InAlphabet(EncodeByte(b, preserveSlash) + rest, preserveSlash)
  {
    EncodeByteSplit(b, rest, preserveSlash);
    HexRoundTrip(b / 16);
    HexRoundTrip(b % 16);
  }

  /** Decoding undoes encoding in both slash modes, for every byte string, and the output stays in the alphabet. */
  lemma {:induction false} EncodeRoundTrip(value: Text, preserveSlash: bool)
    ensures Decode(Encode(value, preserveSlash)) == Some(value)
    ensures InAlphabet(Encode(value, preserveSlash), preserveSlash)
  {
    if value != [] {
      var b, rest := value[0], Encode(value[1..], preserveSlash);
      EncodeRoundTrip(value[1..], preserveSlash);
      ByteDecodes(b, rest, preserveSlash);
      ByteInAlphabet(b, rest, preserveSlash);
      assert value == [b] + value[1..];
    }
  }

  lemma EncodeInjective(a: Text, b: Text, preserveSlash: bool)
    requires Encode(a, preserveSlash) == Encode(b, preserveSlash)
    ensures a == b
  {
    EncodeRoundTrip(a, preserveSlash);
    EncodeRoundTrip(b, preserveSlash);
  }
}
