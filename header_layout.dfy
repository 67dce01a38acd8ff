/** The byte layout of the blob `writeHeaders` stores: every child header
    serialized in creation order, then a 32-byte tail holding four words
    (data hash, then child hash). Header serialization is a parameter;
    the tail is written little-endian. */
module HeaderLayout {
  import opened AbcTypes

  /** The serializer of one object header (`WriteObjectHeader`). */
  type HeaderEncoder = ObjectHeader -> seq<Byte>

  function Pow256(n: nat): (p: nat)
    ensures p > 0
  {
    if n == 0 then 1 else 256 * Pow256(n - 1)
  }

  /** The `n` low-order bytes of `w`, least significant first. */
  function LittleEndian(w: nat, n: nat): (bs: seq<Byte>)
    ensures |bs| == n
  {
    if n == 0 then [] else [w % 256] + LittleEndian(w / 256, n - 1)
  }

  /** The number a little-endian byte string denotes. */
  function FromLittleEndian(bs: seq<Byte>): nat
  {
    if bs == [] then 0 else bs[0] + 256 * FromLittleEndian(bs[1..])
  }

  lemma {:induction false} LittleEndianRoundTrip(w: nat, n: nat)
    requires w < Pow256(n)
    ensures FromLittleEndian(LittleEndian(w, n)) == w
  {
    if n > 0 {
      var bs := LittleEndian(w, n);
      assert w / 256 < Pow256(n - 1);
      LittleEndianRoundTrip(w / 256, n - 1);
      assert bs[1..] == LittleEndian(w / 256, n - 1);
    }
  }

  lemma WordFitsEightBytes(w: Word)
    ensures w < Pow256(8)
  {
  }

  /** The raw bytes of an array of words, eight per word. */
  function WordBytes(words: seq<Word>): (bs: seq<Byte>)
    ensures |bs| == 8 * |words|
  {
    if words == [] then [] else LittleEndian(words[0], 8) + WordBytes(words[1..])
  }

  lemma {:induction false} WordBytesAt(words: seq<Word>, k: nat)
    requires k < |words|
    ensures WordBytes(words)[8 * k..8 * k + 8] == LittleEndian(words[k], 8)
  {
    var bs := WordBytes(words);
    if k == 0 {
      assert bs[..8] == LittleEndian(words[0], 8);
    } else {
      WordBytesAt(words[1..], k - 1);
      assert bs[8..] == WordBytes(words[1..]);
      assert bs[8 * k..8 * k + 8] == bs[8..][8 * (k - 1)..8 * (k - 1) + 8];
    }
  }

  /** Every word of the tail can be read back from its eight bytes. */
  lemma WordBytesRoundTrip(words: seq<Word>, k: nat)
    requires k < |words|
    ensures FromLittleEndian(WordBytes(words)[8 * k..8 * k + 8]) == words[k]
  {
    WordBytesAt(words, k);
    WordFitsEightBytes(words[k]);
    LittleEndianRoundTrip(words[k], 8);
  }

  /** All headers serialized one after another, in order. */
  function PackedHeaders(encode: HeaderEncoder, headers: seq<ObjectHeader>): seq<Byte>
  {
    if headers == [] then []
    else PackedHeaders(encode, headers[..|headers| - 1]) + encode(headers[|headers| - 1])
  }

  /** Serializing two runs of headers is serializing each in turn. */
  lemma {:induction false} PackedHeadersAppend(encode: HeaderEncoder, a: seq<ObjectHeader>, b: seq<ObjectHeader>)
    ensures PackedHeaders(encode, a + b) == PackedHeaders(encode, a) + PackedHeaders(encode, b)
  {
    if b != [] {
      var b' := b[..|b| - 1];
      assert (a + b)[..|a + b| - 1] == a + b';
      assert (a + b)[|a + b| - 1] == b[|b| - 1];
      PackedHeadersAppend(encode, a, b');
    } else {
      assert a + b == a;
    }
  }

  /** The blob written for one object. */
  function HeaderBlob(encode: HeaderEncoder, headers: seq<ObjectHeader>, tail: seq<Word>): seq<Byte>
  {
    PackedHeaders(encode, headers) + WordBytes(tail)
  }

  /** The blob is never empty; it ends in exactly 32 bytes from which the
      four tail words can be read back, and everything before them is the
      serialized headers. */
  lemma BlobLayout(encode: HeaderEncoder, headers: seq<ObjectHeader>, tail: seq<Word>)
    requires |tail| == 4
    ensures var b := HeaderBlob(encode, headers, tail);
      && |b| == |PackedHeaders(encode, headers)| + 32
      && b[..|b| - 32] == PackedHeaders(encode, headers)
      && forall k :: 0 <= k < 4 ==> FromLittleEndian(b[|b| - 32 + 8 * k..|b| - 24 + 8 * k]) == tail[k]
  {
    var b := HeaderBlob(encode, headers, tail);
    var p := PackedHeaders(encode, headers);
    assert b[..|b| - 32] == p;
    forall k | 0 <= k < 4
      ensures FromLittleEndian(b[|b| - 32 + 8 * k..|b| - 24 + 8 * k]) == tail[k]
    {
      assert b[|b| - 32 + 8 * k..|b| - 24 + 8 * k] == WordBytes(tail)[8 * k..8 * k + 8];
      WordBytesRoundTrip(tail, k);
    }
  }
}
