/**
  UTF-8 as sections 3 and 4 of RFC 3629 define it, and what moving a byte cut
  forward to the next character start does to a valid text.
*/
module Utf8 {
  import opened Prelude

  type Bytes = seq<Byte>

  /** A Unicode scalar value: no surrogates. */
  type Scalar = c: int | 0 <= c < 0xD800 || 0xE000 <= c < 0x11_0000

  type Text = seq<Scalar>

  /* ---------- encoding and decoding ---------- */

  function Encode(c: Scalar): Bytes {
    if c < 0x80 then [c]
    else if c < 0x800 then [0xC0 + c / 0x40, 0x80 + c % 0x40]
    else if c < 0x1_0000 then [0xE0 + c / 0x1000, 0x80 + c / 0x40 % 0x40, 0x80 + c % 0x40]
    else [0xF0 + c / 0x4_0000, 0x80 + c / 0x1000 % 0x40, 0x80 + c / 0x40 % 0x40, 0x80 + c % 0x40]
  }

  function EncodeAll(text: Text): Bytes {
    if text == [] then [] else Encode(text[0]) + EncodeAll(text[1..])
  }

  /** A continuation octet: the two top bits are 10. */
  predicate Tail(b: Byte) { 0x80 <= b <= 0xBF }

  /** Octets of the first character by the grammar UTF8-1 | ... | UTF8-4; 0 when there is none. */
  function FirstLength(s: Bytes): (n: nat)
    ensures n <= |s| && n <= 4
  {
    if s == [] then 0
    else if s[0] <= 0x7F then 1
    else if 0xC2 <= s[0] <= 0xDF then
      if |s| >= 2 && Tail(s[1]) then 2 else 0
    else if 0xE0 <= s[0] <= 0xEF then
      if && |s| >= 3 && Tail(s[1]) && Tail(s[2])
         && (s[0] == 0xE0 ==> 0xA0 <= s[1]) && (s[0] == 0xED ==> s[1] <= 0x9F) then 3 else 0
    else if 0xF0 <= s[0] <= 0xF4 then
      if && |s| >= 4 && Tail(s[1]) && Tail(s[2]) && Tail(s[3])
         && (s[0] == 0xF0 ==> 0x90 <= s[1]) && (s[0] == 0xF4 ==> s[1] <= 0x8F) then 4 else 0
    else 0
  }

  function FirstScalar(s: Bytes): Scalar
    requires FirstLength(s) > 0
  {
    var n := FirstLength(s);
    if n == 1 then s[0]
    else if n == 2 then (s[0] as int - 0xC0) * 0x40 + (s[1] - 0x80)
    else if n == 3 then ((s[0] as int - 0xE0) * 0x40 + (s[1] - 0x80)) * 0x40 + (s[2] - 0x80)
    else (((s[0] as int - 0xF0) * 0x40 + (s[1] - 0x80)) * 0x40 + (s[2] - 0x80)) * 0x40 + (s[3] - 0x80)
  }

  /** Strict decoding: None unless the whole input is well formed. */
  function Decode(s: Bytes): Option<Text>
    decreases |s|
  {
    if s == [] then Some([])
    else if FirstLength(s) == 0 then None
    else
      match Decode(s[FirstLength(s)..])
      case None => None
      case Some(rest) => Some([FirstScalar(s)] + rest)
  }

  predicate Valid(s: Bytes) { Decode(s).Some? }

  /** The base-64 digits of a scalar value. */
  lemma Digits(c: int)
    requires 0 <= c < 0x11_0000
    ensures c == c / 0x40 * 0x40 + c % 0x40
    ensures c / 0x40 == c / 0x1000 * 0x40 + c / 0x40 % 0x40
    ensures c / 0x1000 == c / 0x4_0000 * 0x40 + c / 0x1000 % 0x40
  {
  }

  /** Digits determine the number, and dividing recovers them. */
  lemma Undigit(hi: int, lo: int)
    requires 0 <= hi && 0 <= lo < 0x40
    ensures (hi * 0x40 + lo) / 0x40 == hi && (hi * 0x40 + lo) % 0x40 == lo
  {
  }

  lemma EncodeThree(a: int, b: int, c: int)
    requires 0 <= a < 0x10 && 0 <= b < 0x40 && 0 <= c < 0x40
    requires 0x20 <= a * 0x40 + b && (a == 0xD ==> b < 0x20)
    ensures var x := (a * 0x40 + b) * 0x40 + c;
      0x800 <= x < 0x1_0000 && !(0xD800 <= x < 0xE000) && Encode(x) == [0xE0 + a, 0x80 + b, 0x80 + c]
  {
    var h := a * 0x40 + b;
    var x := h * 0x40 + c;
    Undigit(a, b);
    Undigit(h, c);
    assert x / 0x1000 == h / 0x40;
  }

  lemma EncodeFour(a: int, b: int, c: int, d: int)
    requires 0 <= a < 5 && 0 <= b < 0x40 && 0 <= c < 0x40 && 0 <= d < 0x40
    requires 0x10 <= a * 0x40 + b < 0x110
    ensures var x := ((a * 0x40 + b) * 0x40 + c) * 0x40 + d;
      0x1_0000 <= x < 0x11_0000 && Encode(x) == [0xF0 + a, 0x80 + b, 0x80 + c, 0x80 + d]
  {
    var g := a * 0x40 + b;
    var h := g * 0x40 + c;
    var x := h * 0x40 + d;
    Undigit(a, b);
    Undigit(g, c);
    Undigit(h, d);
    assert x / 0x1000 == h / 0x40 && x / 0x4_0000 == g / 0x40;
  }

  lemma FirstEncodes(s: Bytes)
    requires FirstLength(s) > 0
    ensures Encode(FirstScalar(s)) == s[..FirstLength(s)]
  {
    var n := FirstLength(s);
    if n == 2 {
      Undigit(s[0] as int - 0xC0, s[1] - 0x80);
    } else if n == 3 {
      EncodeThree(s[0] as int - 0xE0, s[1] - 0x80, s[2] - 0x80);
    } else if n == 4 {
      EncodeFour(s[0] as int - 0xF0, s[1] - 0x80, s[2] - 0x80, s[3] - 0x80);
    }
  }

  lemma EncodedShort(c: Scalar, s: Bytes)
    requires c < 0x1_0000 && |Encode(c)| <= |s| && s[..|Encode(c)|] == Encode(c)
    ensures FirstLength(s) == |Encode(c)| > 0 && FirstScalar(s) == c
  {
    Digits(c);
    var e := Encode(c);
    assert forall i :: 0 <= i < |e| ==> s[i] == e[i];
  }

  lemma EncodedLong(c: Scalar, s: Bytes)
    requires 0x1_0000 <= c && |Encode(c)| <= |s| && s[..|Encode(c)|] == Encode(c)
    ensures FirstLength(s) == |Encode(c)| > 0 && FirstScalar(s) == c
  {
    Digits(c);
    var e := Encode(c);
    assert s[0] == e[0] && s[1] == e[1] && s[2] == e[2] && s[3] == e[3];
  }

  lemma EncodedIsFirst(c: Scalar, rest: Bytes)
    ensures FirstLength(Encode(c) + rest) == |Encode(c)| > 0
    ensures FirstScalar(Encode(c) + rest) == c
  {
    if c < 0x1_0000 {
      EncodedShort(c, Encode(c) + rest);
    } else {
      EncodedLong(c, Encode(c) + rest);
    }
  }

  /** decode after encode */
  lemma {:induction false} DecodeEncode(text: Text)
    ensures Decode(EncodeAll(text)) == Some(text)
  {
    if text != [] {
      var e, rest := Encode(text[0]), EncodeAll(text[1..]);
      EncodedIsFirst(text[0], rest);
      DecodeEncode(text[1..]);
      assert (e + rest)[|e|..] == rest;
      assert text == [text[0]] + text[1..];
    }
  }

  /** A decoded text starts with the character whose encoding the bytes start with. */
  lemma DecodeHead(s: Bytes) returns (head: Bytes, tail: Bytes)
    requires Valid(s) && s != []
    ensures s == head + tail && |head| > 0 && Valid(tail) && Decode(s).value != []
    ensures Encode(Decode(s).value[0]) == head && Decode(s).value[1..] == Decode(tail).value
  {
    FirstEncodes(s);
    head, tail := s[..FirstLength(s)], s[FirstLength(s)..];
  }

  /** encode after a successful decode: overlong forms and surrogates never get this far */
  lemma {:induction false} EncodeDecode(s: Bytes)
    requires Valid(s)
    ensures EncodeAll(Decode(s).value) == s
    decreases |s|
  {
    if s != [] {
      var head, tail := DecodeHead(s);
      EncodeDecode(tail);
    }
  }

  lemma FirstOfPrefix(a: Bytes, b: Bytes)
    requires FirstLength(a) > 0
    ensures FirstLength(a + b) == FirstLength(a) && FirstScalar(a + b) == FirstScalar(a)
  {
    assert forall i :: 0 <= i < |a| ==> (a + b)[i] == a[i];
  }

  /** Decoding splits at the end of any valid prefix. */
  lemma {:induction false} DecodeConcat(a: Bytes, b: Bytes)
    requires Valid(a)
    ensures Valid(a + b) <==> Valid(b)
    ensures Valid(b) ==> Decode(a + b) == Some(Decode(a).value + Decode(b).value)
    decreases |a|
  {
    if a == [] {
      assert a + b == b;
      assert Valid(b) ==> [] + Decode(b).value == Decode(b).value;
    } else {
      var n := FirstLength(a);
      FirstOfPrefix(a, b);
      assert (a + b)[n..] == a[n..] + b;
      DecodeConcat(a[n..], b);
      if Valid(b) {
        assert [FirstScalar(a)] + (Decode(a[n..]).value + Decode(b).value)
            == [FirstScalar(a)] + Decode(a[n..]).value + Decode(b).value;
      }
    }
  }

  /* ---------- character starts and cuts ---------- */

  /** A position no character straddles. */
  predicate Cut(s: Bytes, i: nat)
    requires i <= |s|
  {
    i == |s| || !Tail(s[i])
  }

  lemma InsideFirst(s: Bytes, i: nat)
    requires 0 < i < FirstLength(s)
    ensures Tail(s[i]) && !Valid(s[..i])
  {
    assert s[..i][0] == s[0];
    assert FirstLength(s[..i]) == 0;
  }

  lemma PastFirst(s: Bytes, i: nat)
    requires 0 < FirstLength(s) <= i <= |s|
    ensures var n := FirstLength(s);
      && s[..i][n..] == s[n..][..i - n] && s[n..][i - n..] == s[i..] && s[..i] + s[i..] == s
      && FirstLength(s[..i]) == n && FirstScalar(s[..i]) == FirstScalar(s)
  {
    var n := FirstLength(s);
    assert forall k :: 0 <= k < n ==> s[..i][k] == s[k];
  }

  /** In valid UTF-8 the bit test finds exactly the positions that split the text in two texts. */
  lemma {:induction false} CutsSplit(s: Bytes, i: nat)
    requires Valid(s) && i <= |s|
    ensures Cut(s, i) <==> Valid(s[..i])
    ensures Cut(s, i) ==> Valid(s[i..]) && Decode(s) == Some(Decode(s[..i]).value + Decode(s[i..]).value)
    decreases |s|
  {
    if i == 0 {
      assert s[..0] == [] && s[0..] == s;
      assert [] + Decode(s).value == Decode(s).value;
    } else if i < FirstLength(s) {
      InsideFirst(s, i);
    } else {
      PastFirst(s, i);
      CutsSplit(s[FirstLength(s)..], i - FirstLength(s));
      if Cut(s, i) {
        DecodeConcat(s[..i], s[i..]);
      }
    }
  }

  /** The specification of the boundary loop: the first cut at or after i. */
  function Snap(s: Bytes, i: nat): (j: nat)
    requires i <= |s|
    ensures i <= j <= |s| && Cut(s, j)
    ensures forall k :: i <= k < j ==> !Cut(s, k)
    decreases |s| - i
  {
    if i < |s| && Tail(s[i]) then Snap(s, i + 1) else i
  }

  lemma SnapMonotone(s: Bytes, i: nat, j: nat)
    requires i <= j <= |s|
    ensures Snap(s, i) <= Snap(s, j)
  {
  }

  /** Snapping never moves a character to another chunk than the one holding its first octet. */
  lemma OwnerHoldsFirstOctet(s: Bytes, i: nat, p: nat)
    requires i <= |s| && p < |s| && Cut(s, p)
    ensures Snap(s, i) <= p <==> i <= p
  {
  }

  /** Between two snapped ends lies valid text. */
  lemma SnappedSliceIsValid(s: Bytes, i: nat, j: nat)
    requires Valid(s) && i <= j <= |s|
    ensures Snap(s, i) <= Snap(s, j) && Valid(s[Snap(s, i)..Snap(s, j)])
  {
    SnapMonotone(s, i, j);
    var a, b := Snap(s, i), Snap(s, j);
    CutsSplit(s, b);
    assert Cut(s[..b], a);
    CutsSplit(s[..b], a);
    assert s[..b][a..] == s[a..b];
  }

  /* ---------- a whole tiling ---------- */

  ghost predicate Cuts(s: Bytes, cuts: seq<nat>) {
    && |cuts| > 0
    && (forall k :: 0 <= k < |cuts| ==> cuts[k] <= |s|)
    && (forall k, l :: 0 <= k < l < |cuts| ==> cuts[k] <= cuts[l])
  }

  /** The snapped chunk k of the chunks cuts[0]..cuts[1]..cuts[2]... */
  ghost function Chunk(s: Bytes, cuts: seq<nat>, k: nat): Bytes
    requires Cuts(s, cuts) && k + 1 < |cuts|
  {
    SnapMonotone(s, cuts[k], cuts[k + 1]);
    s[Snap(s, cuts[k])..Snap(s, cuts[k + 1])]
  }

  ghost function DecodedChunks(s: Bytes, cuts: seq<nat>): Text
    requires Valid(s) && Cuts(s, cuts)
  {
    if |cuts| == 1 then []
    else
      var n := |cuts| - 1;
      SnappedSliceIsValid(s, cuts[n - 1], cuts[n]);
      DecodedChunks(s, cuts[..n]) + Decode(Chunk(s, cuts, n - 1)).value
  }

  lemma AdjacentSlicesJoin(s: Bytes, i: nat, j: nat, l: nat)
    requires Valid(s) && i <= j <= l <= |s|
    ensures Snap(s, i) <= Snap(s, j) <= Snap(s, l)
    ensures Valid(s[Snap(s, i)..Snap(s, j)]) && Valid(s[Snap(s, j)..Snap(s, l)]) && Valid(s[Snap(s, i)..Snap(s, l)])
    ensures Decode(s[Snap(s, i)..Snap(s, l)]).value
         == Decode(s[Snap(s, i)..Snap(s, j)]).value + Decode(s[Snap(s, j)..Snap(s, l)]).value
  {
    SnappedSliceIsValid(s, i, j);
    SnappedSliceIsValid(s, j, l);
    SlicesJoin(s, Snap(s, i), Snap(s, j), Snap(s, l));
  }

  lemma SlicesJoin(s: Bytes, a: nat, m: nat, b: nat)
    requires a <= m <= b <= |s| && Valid(s[a..m]) && Valid(s[m..b])
    ensures Valid(s[a..b]) && Decode(s[a..b]).value == Decode(s[a..m]).value + Decode(s[m..b]).value
  {
    assert s[a..m] + s[m..b] == s[a..b];
    DecodeConcat(s[a..m], s[m..b]);
  }

  lemma CutsPrefix(s: Bytes, cuts: seq<nat>)
    requires Cuts(s, cuts) && |cuts| > 1
    ensures var n := |cuts| - 1;
      Cuts(s, cuts[..n]) && cuts[..n][0] == cuts[0] && cuts[..n][n - 1] == cuts[n - 1] && cuts[0] <= cuts[n - 1] <= cuts[n]
  {
  }

  /** Decoding the snapped chunks one by one gives the decoded snapped range: no gap, no overlap. */
  lemma {:induction false} ChunksConcatenate(s: Bytes, cuts: seq<nat>)
    requires Valid(s) && Cuts(s, cuts)
    ensures var a, b := Snap(s, cuts[0]), Snap(s, cuts[|cuts| - 1]);
      a <= b && Valid(s[a..b]) && DecodedChunks(s, cuts) == Decode(s[a..b]).value
  {
    var n := |cuts| - 1;
    if n == 0 {
      assert s[Snap(s, cuts[0])..Snap(s, cuts[0])] == [];
    } else {
      CutsPrefix(s, cuts);
      ChunksConcatenate(s, cuts[..n]);
      AdjacentSlicesJoin(s, cuts[0], cuts[n - 1], cuts[n]);
    }
  }

  /** A character belongs, whole, to the snapped chunk whose original bytes hold its first octet. */
  lemma EachCharacterHasAnOwner(s: Bytes, cuts: seq<nat>, p: nat) returns (k: nat)
    requires Valid(s) && Cuts(s, cuts) && p < |s| && Cut(s, p) && cuts[0] <= p < cuts[|cuts| - 1]
    ensures k < |cuts| - 1 && cuts[k] <= p < cuts[k + 1]
    ensures Snap(s, cuts[k]) <= p && Snap(s, p + 1) <= Snap(s, cuts[k + 1])
  {
    k := 0;
    while cuts[k + 1] <= p
      invariant k < |cuts| - 1 && cuts[k] <= p
      decreases |cuts| - k
    {
      k := k + 1;
    }
    OwnerHoldsFirstOctet(s, cuts[k], p);
    SnapMonotone(s, p + 1, cuts[k + 1]);
  }

  /** ... and to no later one: snapped chunks are disjoint. */
  lemma OwnersAreUnique(s: Bytes, cuts: seq<nat>, k: nat, l: nat, p: nat)
    requires Cuts(s, cuts) && k < l < |cuts| - 1
    requires Snap(s, cuts[k]) <= p < Snap(s, cuts[k + 1])
    ensures p < Snap(s, cuts[l])
  {
    SnapMonotone(s, cuts[k + 1], cuts[l]);
  }
}
