/** internal/util/base64.go over a real codec: section 4 of RFC 4648 with the leniency of Go's standard
    decoder, which skips CR and LF and ignores the unused bits before the padding. */
module Base64 {
  import opened Basics

  type Byte = bv8

  type Sextet = v: bv8 | v < 64

  const PAD: Byte := 61

  const ALPHABET := "ABCDEFGHIJKLMNOPQRSTUVWXYZ" + "abcdefghijklmnopqrstuvwxyz" + "0123456789" + "+/"

  // ----- codec -----

  /** 'A'..'Z', 'a'..'z', '0'..'9', '+', '/'. */
  function Symbol(v: Sextet): Byte {
    if v < 26 then 65 + v
    else if v < 52 then 97 + (v - 26)
    else if v < 62 then 48 + (v - 52)
    else if v == 62 then 43
    else 47
  }

  function Value(c: Byte): Option<Sextet> {
    if 65 <= c <= 90 then Some(c - 65)
    else if 97 <= c <= 122 then Some(c - 97 + 26)
    else if 48 <= c <= 57 then Some(c - 48 + 52)
    else if c == 43 then Some(62)
    else if c == 47 then Some(63)
    else None
  }

  lemma SymbolValue(v: Sextet)
    ensures Value(Symbol(v)) == Some(v) && Symbol(v) !in {PAD, 10, 13}
  {
  }

  function Group(a: Byte, b: Byte, c: Byte): seq<Byte> {
    [Symbol(a >> 2), Symbol(((a & 3) << 4) | (b >> 4)), Symbol(((b & 15) << 2) | (c >> 6)), Symbol(c & 63)]
  }

  function Encode(s: seq<Byte>): seq<Byte> {
    if s == [] then []
    else if |s| == 1 then Group(s[0], 0, 0)[..2] + [PAD, PAD]
    else if |s| == 2 then Group(s[0], s[1], 0)[..3] + [PAD]
    else Group(s[0], s[1], s[2]) + Encode(s[3..])
  }

  function WithoutNewlines(t: seq<Byte>): seq<Byte> {
    if t == [] then []
    else if t[0] in {10, 13} then WithoutNewlines(t[1..])
    else [t[0]] + WithoutNewlines(t[1..])
  }

  function First(v0: Sextet, v1: Sextet): Byte { (v0 << 2) | (v1 >> 4) }

  function Second(v1: Sextet, v2: Sextet): Byte { (v1 << 4) | (v2 >> 2) }

  function Third(v2: Sextet, v3: Sextet): Byte { (v2 << 6) | v3 }

  /** Only the last quantum may be padded, in its last two places or in its last. */
  function Quantum(c0: Byte, c1: Byte, c2: Byte, c3: Byte, last: bool): Option<seq<Byte>> {
    match (Value(c0), Value(c1))
    case (Some(v0), Some(v1)) =>
      if last && c2 == PAD && c3 == PAD then Some([First(v0, v1)])
      else if Value(c2).None? then None
      else
        var v2 := Value(c2).value;
        if last && c3 == PAD then Some([First(v0, v1), Second(v1, v2)])
        else if Value(c3).None? then None
        else Some([First(v0, v1), Second(v1, v2), Third(v2, Value(c3).value)])
    case _ => None
  }

  function DecodeQuanta(t: seq<Byte>): Option<seq<Byte>> {
    if t == [] then Some([])
    else if |t| < 4 then None
    else
      match (Quantum(t[0], t[1], t[2], t[3], |t| == 4), DecodeQuanta(t[4..]))
      case (Some(bytes), Some(rest)) => Some(bytes + rest)
      case _ => None
  }

  function Decode(t: seq<Byte>): Option<seq<Byte>> {
    DecodeQuanta(WithoutNewlines(t))
  }

  function Base64IfNot(s: seq<Byte>): seq<Byte> {
    if Decode(s).Some? then s else Encode(s)
  }

  // ----- round trip -----

  /** Cutting three bytes into four sextets loses nothing. */
  lemma Regrouped(a: Byte, b: Byte, c: Byte)
    ensures First(a >> 2, ((a & 3) << 4) | (b >> 4)) == a
    ensures Second(((a & 3) << 4) | (b >> 4), ((b & 15) << 2) | (c >> 6)) == b
    ensures Third(((b & 15) << 2) | (c >> 6), c & 63) == c
  {
  }

  lemma QuantumOfSymbols(v0: Sextet, v1: Sextet, v2: Sextet, v3: Sextet, last: bool)
    ensures Quantum(Symbol(v0), Symbol(v1), Symbol(v2), Symbol(v3), last) == Some([First(v0, v1), Second(v1, v2), Third(v2, v3)])
    ensures last ==> Quantum(Symbol(v0), Symbol(v1), Symbol(v2), PAD, last) == Some([First(v0, v1), Second(v1, v2)])
    ensures last ==> Quantum(Symbol(v0), Symbol(v1), PAD, PAD, last) == Some([First(v0, v1)])
  {
    SymbolValue(v0);
    SymbolValue(v1);
    SymbolValue(v2);
    SymbolValue(v3);
  }

  lemma QuantumOfGroup(a: Byte, b: Byte, c: Byte, last: bool)
    ensures var g := Group(a, b, c);
            && Quantum(g[0], g[1], g[2], g[3], last) == Some([a, b, c])
            && (last ==> Quantum(g[0], g[1], g[2], PAD, last) == Some([a, b]))
            && (last ==> Quantum(g[0], g[1], PAD, PAD, last) == Some([a]))
  {
    QuantumOfSymbols(a >> 2, ((a & 3) << 4) | (b >> 4), ((b & 15) << 2) | (c >> 6), c & 63, last);
    Regrouped(a, b, c);
  }

  lemma LastQuantum(t: seq<Byte>)
    requires |t| == 4
    ensures DecodeQuanta(t) == Quantum(t[0], t[1], t[2], t[3], true)
  {
    assert t[4..] == [];
    var q := Quantum(t[0], t[1], t[2], t[3], true);
    assert q.Some? ==> q.value + [] == q.value;
  }

  lemma FullGroup(a: Byte, b: Byte, c: Byte, t: seq<Byte>)
    requires DecodeQuanta(t).Some?
    ensures DecodeQuanta(Group(a, b, c) + t) == Some([a, b, c] + DecodeQuanta(t).value)
  {
    QuantumOfGroup(a, b, c, t == []);
    assert (Group(a, b, c) + t)[4..] == t;
  }

  lemma OneByte(a: Byte)
    ensures DecodeQuanta(Encode([a])) == Some([a])
  {
    QuantumOfGroup(a, 0, 0, true);
    var g := Group(a, 0, 0);
    assert Encode([a]) == [g[0], g[1], PAD, PAD];
    LastQuantum([g[0], g[1], PAD, PAD]);
  }

  lemma TwoBytes(a: Byte, b: Byte)
    ensures DecodeQuanta(Encode([a, b])) == Some([a, b])
  {
    QuantumOfGroup(a, b, 0, true);
    var g := Group(a, b, 0);
    assert Encode([a, b]) == [g[0], g[1], g[2], PAD];
    LastQuantum([g[0], g[1], g[2], PAD]);
  }

  lemma {:induction false} DecodeQuantaEncode(s: seq<Byte>)
    ensures DecodeQuanta(Encode(s)) == Some(s)
  {
    if |s| >= 3 {
      DecodeQuantaEncode(s[3..]);
      assert s == [s[0], s[1], s[2]] + s[3..];
      EncodeMore(s[0], s[1], s[2], s[3..]);
      FullGroup(s[0], s[1], s[2], Encode(s[3..]));
    } else if |s| == 2 {
      TwoBytes(s[0], s[1]);
      assert s == [s[0], s[1]];
    } else if |s| == 1 {
      OneByte(s[0]);
      assert s == [s[0]];
    }
  }

  lemma EncodeMore(a: Byte, b: Byte, c: Byte, s: seq<Byte>)
    ensures Encode([a, b, c] + s) == Group(a, b, c) + Encode(s)
  {
    var t := [a, b, c] + s;
    assert t[0] == a && t[1] == b && t[2] == c && t[3..] == s;
  }

  lemma {:induction false} EncodedWithoutNewlines(s: seq<Byte>)
    ensures forall i | 0 <= i < |Encode(s)| :: Encode(s)[i] !in {10, 13}
    ensures |Encode(s)| == (|s| + 2) / 3 * 4
  {
    if |s| >= 3 {
      EncodedWithoutNewlines(s[3..]);
    }
  }

  lemma {:induction false} NothingToSkip(t: seq<Byte>)
    requires forall i | 0 <= i < |t| :: t[i] !in {10, 13}
    ensures WithoutNewlines(t) == t
  {
    if t != [] {
      NothingToSkip(t[1..]);
    }
  }

  /** Decoding undoes encoding, for every byte string. */
  lemma RoundTrip(s: seq<Byte>)
    ensures Decode(Encode(s)) == Some(s)
  {
    EncodedWithoutNewlines(s);
    NothingToSkip(Encode(s));
    DecodeQuantaEncode(s);
  }

  // ----- the standard form -----

  lemma UpperAt(n: nat)
    requires n < 26
    ensures "ABCDEFGHIJKLMNOPQRSTUVWXYZ"[n] as int == 65 + n
  {
  }

  lemma LowerAt(n: nat)
    requires n < 26
    ensures "abcdefghijklmnopqrstuvwxyz"[n] as int == 97 + n
  {
  }

  lemma DigitAt(n: nat)
    requires n < 10
    ensures "0123456789"[n] as int == 48 + n
  {
  }

  lemma CodeAt(n: nat)
    requires n < 64
    ensures ALPHABET[n] as int ==
            if n < 26 then 65 + n else if n < 52 then 97 + (n - 26) else if n < 62 then 48 + (n - 52)
            else if n == 62 then 43 else 47
  {
    Joined("ABCDEFGHIJKLMNOPQRSTUVWXYZ", "abcdefghijklmnopqrstuvwxyz", "0123456789", "+/", n);
    if n < 26 {
      UpperAt(n);
    } else if n < 52 {
      LowerAt(n - 26);
    } else if n < 62 {
      DigitAt(n - 52);
    }
  }

  lemma Joined(a: string, b: string, c: string, d: string, n: nat)
    requires n < |a + b + c + d|
    ensures (a + b + c + d)[n] ==
            if n < |a| then a[n] else if n < |a + b| then b[n - |a|]
            else if n < |a + b + c| then c[n - |a + b|] else d[n - |a + b + c|]
  {
  }

  /** Symbol v is the v-th character of the alphabet, and nothing else has a value. */
  lemma SymbolAt(v: Sextet, c: Byte)
    ensures Symbol(v) as int == ALPHABET[v as int] as int
    ensures Value(c) == Some(v) <==> c == Symbol(v)
  {
    CodeAt(v as int);
  }

  /** Three bytes are cut, highest bit first, into the sextets of four symbols. */
  lemma GroupBits(a: Byte, b: Byte, c: Byte)
    ensures var g := Group(a, b, c);
            && (forall i | 0 <= i < 4 :: Value(g[i]).Some?)
            && (((Value(g[0]).value as bv24) << 18) | ((Value(g[1]).value as bv24) << 12)
               | ((Value(g[2]).value as bv24) << 6) | (Value(g[3]).value as bv24))
               == ((a as bv24) << 16) | ((b as bv24) << 8) | (c as bv24)
  {
    SymbolValue(a >> 2);
    SymbolValue(((a & 3) << 4) | (b >> 4));
    SymbolValue(((b & 15) << 2) | (c >> 6));
    SymbolValue(c & 63);
  }

  /** Section 4 of RFC 4648, from the front: whole groups first, a short one filled with zero bits and '='. */
  lemma EncodeCases(a: Byte, b: Byte, c: Byte, s: seq<Byte>)
    ensures Encode([]) == []
    ensures Encode([a]) == Group(a, 0, 0)[..2] + [61, 61]
    ensures Encode([a, b]) == Group(a, b, 0)[..3] + [61]
    ensures Encode([a, b, c] + s) == Group(a, b, c) + Encode(s)
  {
    EncodeMore(a, b, c, s);
  }

  /** The last n bytes, and no others, are '='. */
  ghost predicate EndsInPads(t: seq<Byte>, n: nat) {
    n <= |t| && forall i | 0 <= i < |t| :: t[i] == 61 <==> i >= |t| - n
  }

  lemma PadsStayLast(g: seq<Byte>, t: seq<Byte>, n: nat)
    requires EndsInPads(g, 0) && EndsInPads(t, n)
    ensures EndsInPads(g + t, n)
  {
  }

  /** A string of 1 modulo 3 bytes ends in two '=', one of 2 modulo 3 bytes in one, and there is no other. */
  lemma {:induction false} EncodedPadding(s: seq<Byte>)
    ensures |s| % 3 == 0 ==> EndsInPads(Encode(s), 0)
    ensures |s| % 3 == 1 ==> EndsInPads(Encode(s), 2)
    ensures |s| % 3 == 2 ==> EndsInPads(Encode(s), 1)
  {
    if |s| >= 3 {
      EncodedPadding(s[3..]);
      LongerPadding(s, if |s| % 3 == 0 then 0 else 3 - |s| % 3);
    } else if |s| == 2 {
      ShortGroups(s[0], s[1]);
      assert s == [s[0], s[1]];
    } else if |s| == 1 {
      ShortGroups(s[0], 0);
      assert s == [s[0]];
    }
  }

  lemma LongerPadding(s: seq<Byte>, n: nat)
    requires |s| >= 3 && EndsInPads(Encode(s[3..]), n)
    ensures EndsInPads(Encode(s), n)
  {
    var g := Group(s[0], s[1], s[2]);
    GroupHasNoPad(s[0], s[1], s[2]);
    PadsStayLast(g, Encode(s[3..]), n);
    assert Encode(s) == g + Encode(s[3..]);
  }

  lemma ShortGroups(a: Byte, b: Byte)
    ensures EndsInPads(Encode([a]), 2) && EndsInPads(Encode([a, b]), 1)
  {
    GroupHasNoPad(a, 0, 0);
    GroupHasNoPad(a, b, 0);
    var g, h := Group(a, 0, 0), Group(a, b, 0);
    assert Encode([a]) == [g[0], g[1], 61, 61];
    assert Encode([a, b]) == [h[0], h[1], h[2], 61];
  }

  lemma GroupHasNoPad(a: Byte, b: Byte, c: Byte)
    ensures EndsInPads(Group(a, b, c), 0)
  {
    SymbolValue(a >> 2);
    SymbolValue(((a & 3) << 4) | (b >> 4));
    SymbolValue(((b & 15) << 2) | (c >> 6));
    SymbolValue(c & 63);
  }

  /** What is skipped while decoding: line feeds and carriage returns, wherever they are, and nothing else. */
  lemma {:induction false} NewlinesSkipped(s: seq<Byte>, c: Byte)
    ensures WithoutNewlines([]) == []
    ensures WithoutNewlines(s + [c]) == WithoutNewlines(s) + if c == 10 || c == 13 then [] else [c]
  {
    if s == [] {
      assert s + [c] == [c];
      assert [c][1..] == [];
    } else {
      assert (s + [c])[1..] == s[1..] + [c];
      NewlinesSkipped(s[1..], c);
    }
  }

  // ----- what is decodable -----

  predicate IsSymbol(c: Byte) {
    Value(c).Some?
  }

  /** All but the last n bytes are symbols, and the last n are '='. */
  ghost predicate SymbolsThenPads(t: seq<Byte>, n: nat)
    requires n <= |t|
  {
    && (forall i | 0 <= i < |t| - n ::
          65 <= t[i] <= 90 || 97 <= t[i] <= 122 || 48 <= t[i] <= 57 || t[i] == 43 || t[i] == 47)
    && (forall i | |t| - n <= i < |t| :: t[i] == 61)
  }

  /** Whole quanta of symbols and at the end up to two '='. */
  ghost predicate StandardText(t: seq<Byte>) {
    |t| % 4 == 0 && exists n: nat | n <= 2 && n <= |t| :: SymbolsThenPads(t, n)
  }

  lemma PaddedIff(t: seq<Byte>)
    ensures Padded(t) <==> StandardText(t)
  {
    if Padded(t) {
      assert SymbolsThenPads(t, Pads(t));
    } else if |t| % 4 == 0 {
      var i :| 0 <= i < |t| - Pads(t) && !IsSymbol(t[i]);
      forall n: nat | n <= 2 && n <= |t|
        ensures !SymbolsThenPads(t, n)
      {
        assert i >= |t| - n ==> n > Pads(t);
        assert n == 1 ==> t[|t| - 1] == 61 ==> Pads(t) >= 1;
        assert n == 2 ==> t[|t| - 1] == 61 && t[|t| - 2] == 61 ==> Pads(t) == 2;
      }
    }
  }

  /** Trailing padding, as far as it is looked for. */
  function Pads(t: seq<Byte>): nat
    ensures Pads(t) <= |t|
  {
    if |t| < 2 || t[|t| - 1] != PAD then 0 else if t[|t| - 2] != PAD then 1 else 2
  }

  /** Whole quanta of symbols, of which at most the last two are padding. */
  ghost predicate Padded(t: seq<Byte>) {
    |t| % 4 == 0 && Symbols(t, |t| - Pads(t))
  }

  ghost predicate Symbols(t: seq<Byte>, n: nat)
    requires n <= |t|
  {
    forall i | 0 <= i < n :: IsSymbol(t[i])
  }

  lemma QuantumIff(c0: Byte, c1: Byte, c2: Byte, c3: Byte, last: bool)
    ensures Quantum(c0, c1, c2, c3, last).Some? <==>
              && IsSymbol(c0) && IsSymbol(c1)
              && (if last && c3 == PAD then c2 == PAD || IsSymbol(c2) else IsSymbol(c2) && IsSymbol(c3))
  {
  }

  lemma PaddedLast(t: seq<Byte>)
    requires |t| == 4
    ensures Padded(t) <==> Quantum(t[0], t[1], t[2], t[3], true).Some?
  {
    QuantumIff(t[0], t[1], t[2], t[3], true);
    var n := 4 - Pads(t);
    assert Symbols(t, n)
      <==> IsSymbol(t[0]) && IsSymbol(t[1]) && (n > 2 ==> IsSymbol(t[2])) && (n > 3 ==> IsSymbol(t[3]));
  }

  lemma SymbolsFrom(t: seq<Byte>, n: nat)
    requires 4 <= n <= |t|
    ensures Symbols(t, n) <==>
              && IsSymbol(t[0]) && IsSymbol(t[1]) && IsSymbol(t[2]) && IsSymbol(t[3])
              && Symbols(t[4..], n - 4)
  {
    var u := t[4..];
    if Symbols(t, n) {
      assert forall i | 0 <= i < n - 4 :: u[i] == t[i + 4];
    } else {
      var i :| 0 <= i < n && !IsSymbol(t[i]);
      assert i >= 4 ==> u[i - 4] == t[i];
    }
  }

  lemma PaddedMore(t: seq<Byte>)
    requires |t| > 4
    ensures Padded(t) <==> Quantum(t[0], t[1], t[2], t[3], false).Some? && Padded(t[4..])
  {
    QuantumIff(t[0], t[1], t[2], t[3], false);
    assert |t| % 4 == 0 <==> |t[4..]| % 4 == 0;
    if |t| % 4 == 0 {
      assert Pads(t) == Pads(t[4..]);
      SymbolsFrom(t, |t| - Pads(t));
    }
  }

  lemma {:induction false} DecodeQuantaPadded(t: seq<Byte>)
    ensures DecodeQuanta(t).Some? <==> Padded(t)
  {
    if |t| == 4 {
      PaddedLast(t);
      assert t[4..] == [];
    } else if |t| > 4 {
      PaddedMore(t);
      DecodeQuantaPadded(t[4..]);
    }
  }

  /** Go's decoder accepts exactly the standard texts. */
  lemma DecodeQuantaIff(t: seq<Byte>)
    ensures DecodeQuanta(t).Some? <==> StandardText(t)
  {
    DecodeQuantaPadded(t);
    PaddedIff(t);
  }

  lemma {:induction false} DecodedIsShorter(t: seq<Byte>)
    requires t != [] && DecodeQuanta(t).Some?
    ensures |DecodeQuanta(t).value| < |t|
  {
    if |t| > 4 {
      DecodedIsShorter(t[4..]);
    } else {
      assert t[4..] == [];
    }
  }

  lemma {:induction false} SkippingShortens(t: seq<Byte>)
    ensures |WithoutNewlines(t)| <= |t|
  {
    if t != [] {
      SkippingShortens(t[1..]);
    }
  }

  /** No non-empty text is its own decoding. */
  lemma NoFixpoint(t: seq<Byte>)
    requires t != []
    ensures Decode(t) != Some(t)
  {
    SkippingShortens(t);
    if Decode(t).Some? && WithoutNewlines(t) != [] {
      DecodedIsShorter(WithoutNewlines(t));
    }
  }

  // ----- Base64IfNot -----

  lemma AlwaysDecodable(s: seq<Byte>)
    ensures Decode(Base64IfNot(s)).Some?
    ensures Base64IfNot(Base64IfNot(s)) == Base64IfNot(s)
  {
    RoundTrip(s);
  }

  /** Text is changed exactly when it is not padded symbols, newlines aside. */
  lemma UnchangedIff(s: seq<Byte>)
    ensures Base64IfNot(s) == s <==> StandardText(WithoutNewlines(s))
  {
    RoundTrip(s);
    DecodeQuantaIff(WithoutNewlines(s));
  }

  /** The receiver gets the caller's bytes back exactly when they did not already read as base64. */
  lemma DecodesToInputIff(s: seq<Byte>)
    ensures Decode(Base64IfNot(s)) == Some(s) <==> s == [] || !StandardText(WithoutNewlines(s))
  {
    RoundTrip(s);
    DecodeQuantaIff(WithoutNewlines(s));
    if s != [] {
      NoFixpoint(s);
    }
  }
}
