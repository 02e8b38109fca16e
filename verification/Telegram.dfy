/**
 The Telegram text of an alert: the escaped message below a header, cut so that the whole
 stays within the limit of the service. Text is a sequence of bytes; character encoding is
 that of section 3 of RFC 3629, as Go's utf8 package checks it.
 */
module Telegram {

  type Byte = b: int | 0 <= b < 256

  type Text = seq<Byte>

  const MAXLEN: int := 4096
  const AMP: Byte := 38
  const SEMI: Byte := 59
  const LT: Byte := 60
  const GT: Byte := 62
  const NEWLINE: Byte := 10

  const BLANK: Text := [10, 10]
  const ELLIPSIS: Text := [0xE2, 0x80, 0xA6]

  // " (message truncated)"
  const NOTE: Text := [32, 40, 109, 101, 115, 115, 97, 103, 101, 32, 116, 114, 117, 110, 99, 97, 116, 101, 100, 41]

  const MARK: Text := BLANK + ELLIPSIS + NOTE

  // ------------------------------------------------------------------------- UTF-8

  predicate Tail(b: Byte) { 0x80 <= b <= 0xBF }

  // The second byte after the given lead; overlong forms, surrogates and what lies beyond
  // U+10FFFF are excluded here.
  predicate Second(lead: Byte, b: Byte) {
    if lead == 0xE0 then 0xA0 <= b <= 0xBF
    else if lead == 0xED then 0x80 <= b <= 0x9F
    else if lead == 0xF0 then 0x90 <= b <= 0xBF
    else if lead == 0xF4 then 0x80 <= b <= 0x8F
    else Tail(b)
  }

  // The length a lead byte announces; 0 for a byte that leads nothing.
  function Announced(lead: Byte): nat {
    if lead <= 0x7F then 1
    else if 0xC2 <= lead <= 0xDF then 2
    else if 0xE0 <= lead <= 0xEF then 3
    else if 0xF0 <= lead <= 0xF4 then 4
    else 0
  }

  // The length of the character that starts the text; 0 when none does.
  function RuneLen(s: Text): (n: nat)
    ensures n <= |s|
  {
    if s == [] then 0
    else
      var n := Announced(s[0]);
      if |s| < n then 0
      else if n > 1 && !Second(s[0], s[1]) then 0
      else if n > 2 && !Tail(s[2]) then 0
      else if n > 3 && !Tail(s[3]) then 0
      else n
  }

  predicate Valid(s: Text) {
    s == [] || (RuneLen(s) > 0 && Valid(s[RuneLen(s)..]))
  }

  lemma RuneLenLocal(s: Text, t: Text)
    requires RuneLen(s) > 0 && RuneLen(s) <= |t| && t[..RuneLen(s)] == s[..RuneLen(s)]
    ensures RuneLen(t) == RuneLen(s)
  {
    var n := RuneLen(s);
    assert forall i :: 0 <= i < n ==> t[i] == t[..n][i] && s[i] == s[..n][i];
  }

  lemma {:induction false} ValidConcat(a: Text, b: Text)
    requires Valid(a)
    ensures Valid(a + b) <==> Valid(b)
  {
    if a == [] {
      assert a + b == b;
    } else {
      var n := RuneLen(a);
      assert (a + b)[..n] == a[..n];
      RuneLenLocal(a, a + b);
      assert (a + b)[n..] == a[n..] + b;
      ValidConcat(a[n..], b);
    }
  }

  // A character cut short is not valid text.
  lemma PartialRuneInvalid(r: Text, k: nat)
    requires 0 < k < RuneLen(r)
    ensures !Valid(r[..k])
  {
  }

  predicate Ascii(s: Text) { forall i :: 0 <= i < |s| ==> s[i] < 0x80 }

  lemma {:induction false} AsciiValid(s: Text)
    requires Ascii(s)
    ensures Valid(s)
  {
    if s != [] { AsciiValid(s[1..]); }
  }

  // Past its first byte a character holds no ASCII.
  lemma RuneBytesHigh(s: Text, i: nat)
    requires i < RuneLen(s) && RuneLen(s) > 1
    ensures s[i] >= 0x80
  {
    assert i == 0 || i == 1 || i == 2 || i == 3;
  }

  // Valid text may be cut before any ASCII byte.
  lemma {:induction false} ValidBeforeAscii(s: Text, i: nat)
    requires Valid(s) && i < |s| && s[i] < 0x80
    ensures Valid(s[..i])
  {
    if i > 0 {
      var n := RuneLen(s);
      if i < n { RuneBytesHigh(s, i); }
      ValidBeforeAscii(s[n..], i - n);
      assert s[..i][..n] == s[..n];
      RuneLenLocal(s, s[..i]);
      assert s[..i][n..] == s[n..][..i - n];
    }
  }

  // --------------------------------------------------- characters behind the bytes

  // A Unicode scalar value: no surrogate, at most U+10FFFF.
  predicate Scalar(c: int) { 0 <= c < 0xD800 || 0xE000 <= c < 0x110000 }

  function Encode(c: int): Text
    requires Scalar(c)
  {
    if c < 0x80 then [c]
    else if c < 0x800 then [0xC0 + c / 64, 0x80 + c % 64]
    else if c < 0x10000 then [0xE0 + c / 4096, 0x80 + c / 64 % 64, 0x80 + c % 64]
    else [0xF0 + c / 262144, 0x80 + c / 4096 % 64, 0x80 + c / 64 % 64, 0x80 + c % 64]
  }

  ghost predicate AllScalar(cs: seq<int>) { forall i :: 0 <= i < |cs| ==> Scalar(cs[i]) }

  function EncodeAll(cs: seq<int>): Text
    requires AllScalar(cs)
  {
    if cs == [] then [] else Encode(cs[0]) + EncodeAll(cs[1..])
  }

  lemma EncodeIsRune(c: int)
    requires Scalar(c)
    ensures RuneLen(Encode(c)) == |Encode(c)| > 0
  {
  }

  lemma RuneIsEncoded(s: Text) returns (c: int)
    requires RuneLen(s) > 0
    ensures Scalar(c) && Encode(c) == s[..RuneLen(s)]
  {
    var n, b0: int := RuneLen(s), s[0];
    if n == 1 {
      c := b0;
    } else if n == 2 {
      var b1: int := s[1];
      c := (b0 - 0xC0) * 64 + (b1 - 0x80);
    } else if n == 3 {
      var b1: int, b2: int := s[1], s[2];
      c := (b0 - 0xE0) * 4096 + (b1 - 0x80) * 64 + (b2 - 0x80);
      Digits(b0 - 0xE0, b1 - 0x80, b2 - 0x80);
    } else {
      var b1: int, b2: int, b3: int := s[1], s[2], s[3];
      var high := (b0 - 0xF0) * 64 + (b1 - 0x80);
      c := high * 4096 + (b2 - 0x80) * 64 + (b3 - 0x80);
      Digits(high, b2 - 0x80, b3 - 0x80);
      assert c / 262144 == high / 64;
    }
  }

  lemma Digits(a: int, b: int, c: int)
    requires 0 <= b < 64 && 0 <= c < 64
    ensures var x := a * 4096 + b * 64 + c; x / 4096 == a && x / 64 % 64 == b && x % 64 == c
  {
    var x := a * 4096 + b * 64 + c;
    assert x / 64 == a * 64 + b;
  }

  /** Text is valid exactly if it is the UTF-8 encoding of some sequence of Unicode scalar
      values, as section 3 of RFC 3629 defines it. */
  lemma ValidIffEncoded(s: Text)
    ensures Valid(s) <==> exists cs :: AllScalar(cs) && EncodeAll(cs) == s
  {
    if Valid(s) { var cs := ValidIsEncoded(s); }
    if cs :| AllScalar(cs) && EncodeAll(cs) == s { EncodedIsValid(cs); }
  }

  lemma {:induction false} ValidIsEncoded(s: Text) returns (cs: seq<int>)
    requires Valid(s)
    ensures AllScalar(cs) && EncodeAll(cs) == s
  {
    if s == [] {
      cs := [];
    } else {
      var c := RuneIsEncoded(s);
      var rest := ValidIsEncoded(s[RuneLen(s)..]);
      cs := [c] + rest;
      EncodeCons(c, rest);
      assert s == s[..RuneLen(s)] + s[RuneLen(s)..];
    }
  }

  lemma EncodeCons(c: int, rest: seq<int>)
    requires Scalar(c) && AllScalar(rest)
    ensures AllScalar([c] + rest) && EncodeAll([c] + rest) == Encode(c) + EncodeAll(rest)
  {
    assert ([c] + rest)[1..] == rest;
  }

  lemma {:induction false} EncodedIsValid(cs: seq<int>)
    requires AllScalar(cs)
    ensures Valid(EncodeAll(cs))
  {
    if cs != [] {
      var e, rest := Encode(cs[0]), EncodeAll(cs[1..]);
      EncodeIsRune(cs[0]);
      EncodedIsValid(cs[1..]);
      assert (e + rest)[..|e|] == e[..|e|] && (e + rest)[|e|..] == rest;
      RuneLenLocal(e, e + rest);
    }
  }

  // ------------------------------------------------------------------------- escaping

  function Entity(b: Byte): (e: Text)
    ensures e != []
  {
    if b == AMP then [38, 97, 109, 112, 59]
    else if b == LT then [38, 108, 116, 59]
    else if b == GT then [38, 103, 116, 59]
    else [b]
  }

  function Escape(m: Text): Text {
    if m == [] then [] else Entity(m[0]) + Escape(m[1..])
  }

  lemma {:induction false} EscapeConcat(a: Text, b: Text)
    ensures Escape(a + b) == Escape(a) + Escape(b)
  {
    if a == [] {
      assert a + b == b;
    } else {
      assert (a + b)[1..] == a[1..] + b;
      EscapeConcat(a[1..], b);
    }
  }

  predicate StartsWith(s: Text, p: Text) { |p| <= |s| && s[..|p|] == p }

  // What the service's HTML parser makes of the three entities.
  function Decode(s: Text): Text {
    if s == [] then []
    else if StartsWith(s, Entity(AMP)) then [AMP] + Decode(s[5..])
    else if StartsWith(s, Entity(LT)) then [LT] + Decode(s[4..])
    else if StartsWith(s, Entity(GT)) then [GT] + Decode(s[4..])
    else [s[0]] + Decode(s[1..])
  }

  lemma DecodeStep(b: Byte, rest: Text)
    ensures Decode(Entity(b) + rest) == [b] + Decode(rest)
  {
    var e := Entity(b);
    var s := e + rest;
    assert s[..|e|] == e && s[|e|..] == rest && s[0] == e[0];
    if b == LT { assert s[1] == 108 && Entity(AMP)[1] == 97; assert |s| >= 5 ==> s[..5][1] == s[1]; }
    if b == GT {
      assert s[1] == 103 && Entity(AMP)[1] == 97 && Entity(LT)[1] == 108;
      assert |s| >= 5 ==> s[..5][1] == s[1];
      assert s[..4][1] == s[1];
    }
    if e == [b] {
      assert |s| >= 5 ==> s[..5][0] == b;
      assert |s| >= 4 ==> s[..4][0] == b;
    }
  }

  /** Escaping loses nothing: the parser gives back the message. */
  lemma {:induction false} DecodeEscape(m: Text)
    ensures Decode(Escape(m)) == m
  {
    if m != [] {
      DecodeStep(m[0], Escape(m[1..]));
      DecodeEscape(m[1..]);
    }
  }

  // Markup is gone, and every ampersand opens an entity that closes later.
  ghost predicate Inert(s: Text) {
    forall i :: 0 <= i < |s| ==> s[i] != LT && s[i] != GT && (s[i] == AMP ==> SEMI in s[i..])
  }

  lemma InertConcat(a: Text, b: Text)
    requires Inert(a) && Inert(b)
    ensures Inert(a + b)
  {
    var s := a + b;
    forall i | 0 <= i < |s| ensures s[i] != LT && s[i] != GT && (s[i] == AMP ==> SEMI in s[i..]) {
      if i < |a| {
        assert s[i..] == a[i..] + b;
      } else {
        assert s[i] == b[i - |a|] && s[i..] == b[i - |a|..];
      }
    }
  }

  lemma EntityInert(b: Byte)
    ensures Inert(Entity(b))
  {
    var e := Entity(b);
    if |e| > 1 { assert e[0..][|e| - 1] == SEMI; }
  }

  lemma {:induction false} EscapeInert(m: Text)
    ensures Inert(Escape(m))
  {
    if m != [] {
      EscapeInert(m[1..]);
      EntityInert(m[0]);
      InertConcat(Entity(m[0]), Escape(m[1..]));
    }
  }

  // A character escapes to an entity or to itself.
  lemma {:induction false} HighEscapesToItself(s: Text)
    requires forall i :: 0 <= i < |s| ==> s[i] >= 0x80
    ensures Escape(s) == s
  {
    if s != [] { HighEscapesToItself(s[1..]); }
  }

  lemma EscapeRune(m: Text)
    requires RuneLen(m) > 0
    ensures var n := RuneLen(m); Escape(m[..n]) == if n == 1 then Entity(m[0]) else m[..n]
  {
    var n := RuneLen(m);
    if n == 1 {
      assert m[..1] == [m[0]];
      assert Escape([]) == [];
    } else {
      forall i | 0 <= i < n ensures m[..n][i] >= 0x80 { RuneBytesHigh(m, i); }
      HighEscapesToItself(m[..n]);
    }
  }

  lemma EscapeSplit(m: Text, k: nat)
    requires k <= |m|
    ensures Escape(m) == Escape(m[..k]) + Escape(m[k..])
  {
    assert m == m[..k] + m[k..];
    EscapeConcat(m[..k], m[k..]);
  }

  lemma EscapeRuneValid(m: Text)
    requires RuneLen(m) > 0
    ensures Valid(Escape(m[..RuneLen(m)]))
  {
    var n := RuneLen(m);
    EscapeRune(m);
    if n == 1 {
      AsciiValid(Entity(m[0]));
    } else {
      RuneLenLocal(m, m[..n]);
      assert m[..n][n..] == [];
    }
  }

  lemma {:induction false} EscapeValid(m: Text)
    requires Valid(m)
    ensures Valid(Escape(m))
  {
    if m != [] {
      var n := RuneLen(m);
      EscapeValid(m[n..]);
      EscapeSplit(m, n);
      EscapeRuneValid(m);
      ValidConcat(Escape(m[..n]), Escape(m[n..]));
    }
  }

  // --------------------------------------------------------------------- trimming

  predicate Space(b: Byte) { b == 32 || b == 10 || b == 9 }

  function TrimRight(s: Text): Text {
    if s != [] && Space(s[|s| - 1]) then TrimRight(s[..|s| - 1]) else s
  }

  function DropInvalid(s: Text): Text {
    if Valid(s) then s else DropInvalid(s[..|s| - 1])
  }

  function LastIndex(s: Text, b: Byte): (i: int)
    ensures -1 <= i < |s|
    ensures i >= 0 ==> s[i] == b
    ensures forall j :: i < j < |s| ==> s[j] != b
  {
    if s == [] then -1 else if s[|s| - 1] == b then |s| - 1 else LastIndex(s[..|s| - 1], b)
  }

  function DropEntity(s: Text): Text {
    var i := LastIndex(s, AMP);
    if i >= 0 && SEMI !in s[i..] then s[..i] else s
  }

  function Trim(s: Text): Text {
    TrimRight(DropEntity(DropInvalid(s)))
  }

  method TrimToValid(s: Text) returns (r: Text)
    ensures r == Trim(s)
  {
    r := s;
    while |r| > 0 && !Valid(r)
      invariant DropInvalid(r) == DropInvalid(s)
    {
      r := r[..|r| - 1];
    }
    var i := LastIndex(r, AMP);
    if i >= 0 && SEMI !in r[i..] {
      r := r[..i];
    }
    r := TrimSpace(r);
  }

  method TrimSpace(s: Text) returns (r: Text)
    ensures r == TrimRight(s)
  {
    r := s;
    while |r| > 0 && Space(r[|r| - 1])
      invariant TrimRight(r) == TrimRight(s)
    {
      r := r[..|r| - 1];
    }
  }

  lemma {:induction false} DropInvalidValid(s: Text)
    ensures Valid(DropInvalid(s))
  {
    if !Valid(s) { DropInvalidValid(s[..|s| - 1]); }
  }

  lemma {:induction false} TrimRightValid(s: Text)
    requires Valid(s)
    ensures Valid(TrimRight(s))
  {
    if s != [] && Space(s[|s| - 1]) {
      ValidBeforeAscii(s, |s| - 1);
      TrimRightValid(s[..|s| - 1]);
    }
  }

  /** Whatever bytes it is given, trimming leaves valid text. */
  lemma TrimValid(s: Text)
    ensures Valid(Trim(s))
  {
    DropInvalidValid(s);
    var t := DropInvalid(s);
    var i := LastIndex(t, AMP);
    if i >= 0 { ValidBeforeAscii(t, i); }
    TrimRightValid(DropEntity(t));
  }

  lemma TrimRightSnoc(s: Text, b: Byte)
    ensures TrimRight(s + [b]) == if Space(b) then TrimRight(s) else s + [b]
  {
    assert (s + [b])[..|s|] == s;
  }

  /** What trimming on the right removes: all the spaces, newlines and tabs at the end, and
      nothing else. */
  lemma {:induction false} TrimRightMeans(s: Text)
    ensures var t := TrimRight(s);
      && |t| <= |s| && s[..|t|] == t
      && (forall i :: |t| <= i < |s| ==> s[i] in {32, 10, 9})
      && (t != [] ==> t[|t| - 1] !in {32, 10, 9})
  {
    if s != [] && Space(s[|s| - 1]) {
      TrimRightMeans(s[..|s| - 1]);
      assert s[..|s| - 1][..|TrimRight(s)|] == s[..|TrimRight(s)|];
    }
  }

  // Trimming white space and escaping commute.
  lemma {:induction false} TrimRightEscape(m: Text)
    ensures TrimRight(Escape(m)) == Escape(TrimRight(m))
  {
    if m != [] {
      var n := |m| - 1;
      var prefix, b := m[..n], m[n];
      assert m == prefix + [b];
      EscapeSnoc(prefix, b);
      TrimRightSnoc(prefix, b);
      TrimRightEntity(Escape(prefix), b);
      if Space(b) { TrimRightEscape(prefix); }
    }
  }

  lemma EscapeSnoc(m: Text, b: Byte)
    ensures Escape(m + [b]) == Escape(m) + Entity(b)
  {
    EscapeConcat(m, [b]);
    assert [b][1..] == [];
  }

  lemma TrimRightEntity(s: Text, b: Byte)
    ensures TrimRight(s + Entity(b)) == if Space(b) then TrimRight(s) else s + Entity(b)
  {
    var e := Entity(b);
    var last := |e| - 1;
    assert s + e == s + e[..last] + [e[last]];
    TrimRightSnoc(s + e[..last], e[last]);
    if Space(b) { assert s + e[..0] == s; }
  }

  // -------------------------------------------------------------------- the cut

  // The greatest character boundary of the message whose escape fits the room.
  function CutPoint(m: Text, room: int): (k: nat)
    requires Valid(m)
    ensures k <= |m|
  {
    if m == [] then 0
    else
      var n := RuneLen(m);
      var e := |Escape(m[..n])|;
      if e > room then 0 else n + CutPoint(m[n..], room - e)
  }

  // Past its first character, a prefix of the text is a prefix of the rest.
  lemma PrefixPastRune(m: Text, k: nat)
    requires 0 < RuneLen(m) <= k <= |m|
    ensures var n := RuneLen(m);
      && m[k..] == m[n..][k - n..]
      && (Valid(m[..k]) <==> Valid(m[n..][..k - n]))
      && |Escape(m[..k])| == |Escape(m[..n])| + |Escape(m[n..][..k - n])|
  {
    var n, p := RuneLen(m), m[..k];
    Slices(m, n, k);
    RuneLenLocal(m, p);
    EscapeLengths(p, n);
  }

  lemma Slices(m: Text, n: nat, k: nat)
    requires n <= k <= |m|
    ensures m[..k][..n] == m[..n] && m[..k][n..] == m[n..][..k - n] && m[k..] == m[n..][k - n..]
  {
    assert |m[..k][n..]| == |m[n..][..k - n]|;
    assert forall i :: 0 <= i < k - n ==> m[..k][n..][i] == m[n..][..k - n][i];
  }

  // The text may be cut at k and the escape of what comes before fits.
  ghost predicate FitsAt(m: Text, k: nat, room: int) {
    k <= |m| && Valid(m[..k]) && Valid(m[k..]) && |Escape(m[..k])| <= room
  }

  lemma FitsAtStart(m: Text, room: int)
    requires Valid(m) && room >= 0
    ensures FitsAt(m, 0, room)
  {
    assert m[..0] == [] && m[0..] == m;
  }

  lemma FitsPastRune(m: Text, k: nat, room: int)
    requires RuneLen(m) > 0 && FitsAt(m[RuneLen(m)..], k, room - |Escape(m[..RuneLen(m)])|)
    ensures FitsAt(m, RuneLen(m) + k, room)
  {
    PrefixPastRune(m, RuneLen(m) + k);
  }

  lemma {:induction false} CutPointFits(m: Text, room: int)
    requires Valid(m) && room >= 0
    ensures FitsAt(m, CutPoint(m, room), room)
  {
    CutPointUnfolds(m, room);
    if m == [] || |Escape(m[..RuneLen(m)])| > room {
      FitsAtStart(m, room);
    } else {
      var n := RuneLen(m);
      var room' := room - |Escape(m[..n])|;
      CutPointFits(m[n..], room');
      FitsPastRune(m, CutPoint(m[n..], room'), room);
    }
  }

  /** No longer prefix that ends on a character boundary fits. */
  lemma {:induction false} CutPointGreatest(m: Text, room: int, k: nat)
    requires Valid(m) && k <= |m| && Valid(m[..k]) && |Escape(m[..k])| <= room
    ensures k <= CutPoint(m, room)
  {
    if k > 0 {
      var p := m[..k];
      var n := RuneLen(p);
      assert m[..n] == p[..n];
      RuneLenLocal(p, m);
      PrefixPastRune(m, k);
      CutPointGreatest(m[n..], room - |Escape(m[..n])|, k - n);
    }
  }

  // What a byte-wise cut leaves of the character it falls in.
  ghost predicate PartialEntity(p: Text) {
    exists b :: 0 < |p| < |Entity(b)| && p == Entity(b)[..|p|]
  }

  ghost predicate PartialRune(p: Text) {
    exists r :: 0 < |p| < RuneLen(r) && p == r[..|p|]
  }

  ghost predicate Partial(p: Text) { p == [] || PartialEntity(p) || PartialRune(p) }

  lemma PrefixOfRunePartial(m: Text, k: nat)
    requires RuneLen(m) > 0 && k < |Escape(m[..RuneLen(m)])|
    ensures Partial(Escape(m[..RuneLen(m)])[..k])
  {
    var n := RuneLen(m);
    EscapeRune(m);
    var p := Escape(m[..n])[..k];
    if k > 0 {
      if n == 1 {
        assert p == Entity(m[0])[..|p|];
      } else {
        assert p == m[..|p|];
      }
    }
  }

  // A cut of the escaped text is the escape of the first k bytes and part of one character.
  ghost predicate CutsInto(m: Text, room: nat, k: nat, p: Text) {
    Partial(p) && room <= |Escape(m)| && k <= |m| && Escape(m)[..room] == Escape(m[..k]) + p
  }

  lemma {:induction false} CutSplits(m: Text, room: nat) returns (p: Text)
    requires Valid(m) && room <= |Escape(m)|
    ensures CutsInto(m, room, CutPoint(m, room), p)
  {
    CutPointUnfolds(m, room);
    if m == [] {
      p := [];
    } else if |Escape(m[..RuneLen(m)])| > room {
      p := CutInFirst(m, room);
    } else {
      var n := RuneLen(m);
      var room' := room - |Escape(m[..n])|;
      EscapeLengths(m, n);
      p := CutSplits(m[n..], room');
      CutPastFirst(m, n, CutPoint(m[n..], room'), room', p);
    }
  }

  lemma CutPointUnfolds(m: Text, room: int)
    requires Valid(m)
    ensures m == [] ==> CutPoint(m, room) == 0
    ensures m != [] && |Escape(m[..RuneLen(m)])| > room ==> CutPoint(m, room) == 0
    ensures m != [] && |Escape(m[..RuneLen(m)])| <= room ==>
      CutPoint(m, room) == RuneLen(m) + CutPoint(m[RuneLen(m)..], room - |Escape(m[..RuneLen(m)])|)
  {
  }

  lemma EscapeLengths(m: Text, n: nat)
    requires n <= |m|
    ensures |Escape(m)| == |Escape(m[..n])| + |Escape(m[n..])|
  {
    EscapeSplit(m, n);
  }

  lemma CutInFirst(m: Text, room: nat) returns (p: Text)
    requires RuneLen(m) > 0 && room < |Escape(m[..RuneLen(m)])|
    ensures CutsInto(m, room, 0, p)
  {
    EscapeSplit(m, RuneLen(m));
    PrefixOfRunePartial(m, room);
    p := Escape(m[..RuneLen(m)])[..room];
    assert m[..0] == [];
  }

  lemma CutPastFirst(m: Text, n: nat, k: nat, room: nat, p: Text)
    requires n <= |m| && CutsInto(m[n..], room, k, p)
    ensures CutsInto(m, |Escape(m[..n])| + room, n + k, p)
  {
    EscapeSplit(m, n);
    EscapePrefix(m, n, k);
    Glue(Escape(m), Escape(m[..n + k]), Escape(m[..n]), Escape(m[n..]), Escape(m[n..][..k]), p, room);
  }

  lemma Glue(all: Text, whole: Text, a: Text, b: Text, part: Text, p: Text, n: nat)
    requires all == a + b && whole == a + part && n <= |b| && b[..n] == part + p
    ensures |a| + n <= |all| && all[..|a| + n] == whole + p
  {
    assert (a + b)[..|a| + n] == a + b[..n];
  }

  lemma EscapePrefix(m: Text, n: nat, k: nat)
    requires n + k <= |m|
    ensures Escape(m[..n + k]) == Escape(m[..n]) + Escape(m[n..][..k])
  {
    EscapeSplit(m[..n + k], n);
    assert m[..n + k][..n] == m[..n] && m[..n + k][n..] == m[n..][..k];
  }

  // ------------------------------------------------- trimming undoes a cut inside a character

  lemma {:induction false} DropPartialRune(a: Text, r: Text, k: nat)
    requires Valid(a) && k < RuneLen(r)
    ensures DropInvalid(a + r[..k]) == a
  {
    var s := a + r[..k];
    ValidConcat(a, r[..k]);
    if k > 0 {
      PartialRuneInvalid(r, k);
      assert s[..|s| - 1] == a + r[..k - 1];
      DropPartialRune(a, r, k - 1);
    } else {
      assert s == a;
    }
  }

  lemma DropWholeIsNothing(m: Text)
    ensures DropEntity(Escape(m)) == Escape(m)
  {
    EscapeInert(m);
  }

  lemma PartialEntityShape(p: Text)
    requires PartialEntity(p)
    ensures p[0] == AMP && Ascii(p) && SEMI !in p && forall j :: 0 < j < |p| ==> p[j] != AMP
  {
    var b :| 0 < |p| < |Entity(b)| && p == Entity(b)[..|p|];
    assert forall j :: 0 <= j < |p| ==> p[j] == Entity(b)[j];
  }

  lemma DropPartialEntity(a: Text, p: Text)
    requires PartialEntity(p)
    ensures DropEntity(a + p) == a
  {
    PartialEntityShape(p);
    var s := a + p;
    var i := LastIndex(s, AMP);
    assert s[|a|] == AMP;
    assert forall j :: |a| < j < |s| ==> s[j] == p[j - |a|];
    assert s[i..] == p;
  }

  /** Cutting the escape of valid text anywhere and trimming leaves exactly the escape of the
      longest message prefix that fits, less its trailing white space: no character and no
      entity is split. */
  lemma CutBodyIsEscapedPrefix(m: Text, room: nat)
    requires Valid(m) && room <= |Escape(m)|
    ensures var shown := TrimRight(m[..CutPoint(m, room)]);
      && Trim(Escape(m)[..room]) == Escape(shown)
      && Valid(shown) && StartsWith(m, shown) && |Escape(shown)| <= room
  {
    var kept := m[..CutPoint(m, room)];
    CutPointFits(m, room);
    TrimKeepsFitting(m, room);
    TrimRightEscape(kept);
    TrimRightValid(kept);
    TrimRightPrefix(kept);
    TrimRightPrefix(Escape(kept));
  }

  lemma TrimKeepsFitting(m: Text, room: nat)
    requires Valid(m) && room <= |Escape(m)|
    ensures Trim(Escape(m)[..room]) == TrimRight(Escape(m[..CutPoint(m, room)]))
  {
    var kept := m[..CutPoint(m, room)];
    var p := CutSplits(m, room);
    CutPointFits(m, room);
    EscapeValid(kept);
    TrimUndoesPartial(kept, p);
  }

  lemma TrimUndoesPartial(m: Text, p: Text)
    requires Valid(Escape(m)) && Partial(p)
    ensures DropEntity(DropInvalid(Escape(m) + p)) == Escape(m)
  {
    var a := Escape(m);
    DropWholeIsNothing(m);
    if p == [] {
      assert a + p == a;
    } else if PartialEntity(p) {
      PartialEntityShape(p);
      AsciiValid(p);
      ValidConcat(a, p);
      DropPartialEntity(a, p);
    } else {
      var r :| 0 < |p| < RuneLen(r) && p == r[..|p|];
      DropPartialRune(a, r, |p|);
    }
  }

  lemma {:induction false} TrimRightPrefix(s: Text)
    ensures StartsWith(s, TrimRight(s))
  {
    if s != [] && Space(s[|s| - 1]) {
      TrimRightPrefix(s[..|s| - 1]);
      var t := TrimRight(s);
      assert s[..|s| - 1][..|t|] == s[..|t|];
    }
  }

  // --------------------------------------------------------------------- the message

  function Room(header: Text): int { MAXLEN - |header| - 1 - |MARK| }

  function Floor(room: int): nat { if room < 0 then 0 else room }

  // Header, body and, where the body had to be cut, the mark.
  function Assembled(header: Text, body: Text, mark: Text, room: int): Text {
    if body == [] then header
    else if |body| > room then header + [NEWLINE] + Trim(body[..Floor(room)]) + mark
    else header + [NEWLINE] + body
  }

  function Message(header: Text, m: Text): Text {
    Assembled(header, Escape(m), MARK, Room(header))
  }

  method BuildMessage(header: Text, m: Text) returns (r: Text)
    ensures r == Message(header, m)
  {
    r := Assemble(header, Escape(m), MARK, MAXLEN - |header| - 1 - |MARK|);
  }

  method Assemble(header: Text, body: Text, mark: Text, room: int) returns (r: Text)
    ensures r == Assembled(header, body, mark, room)
  {
    if |body| == 0 {
      return header;
    }
    if |body| > room {
      var cut := CutBody(body, room);
      return header + [NEWLINE] + cut + mark;
    }
    return header + [NEWLINE] + body;
  }

  method CutBody(body: Text, room: int) returns (cut: Text)
    requires room < |body|
    ensures cut == Trim(body[..Floor(room)])
  {
    var n := room;
    if n < 0 {
      n := 0;
    }
    cut := TrimToValid(body[..n]);
  }

  lemma {:induction false} TrimShortens(s: Text)
    ensures |Trim(s)| <= |s|
  {
    DropInvalidShortens(s);
    TrimRightPrefix(DropEntity(DropInvalid(s)));
  }

  lemma {:induction false} DropInvalidShortens(s: Text)
    ensures |DropInvalid(s)| <= |s|
  {
    if !Valid(s) { DropInvalidShortens(s[..|s| - 1]); }
  }

  lemma EscapeEmptyIff(m: Text)
    ensures Escape(m) == [] <==> m == []
  {
  }

  /** The text stays within the limit exactly when header, newline and mark fit, or there is
      no message and the header alone fits. This needs no valid text. */
  lemma WithinLimitIff(header: Text, m: Text)
    ensures |Message(header, m)| <= 4096 <==> |header| + 1 + |MARK| <= 4096 || (m == [] && |header| <= 4096)
  {
    var body, room := Escape(m), Room(header);
    EscapeEmptyIff(m);
    var cut := Floor(room);
    if |body| > room && body != [] { TrimShortens(body[..cut]); }
  }

  /** The text below the header is the whole escaped message when it fits, and otherwise the
      escape of its longest fitting prefix, less trailing white space, and the mark. */
  lemma MessageShowsLongestPrefix(header: Text, m: Text)
    requires Valid(m) && m != []
    ensures var room := 4096 - |header| - 1 - |MARK|;
      Message(header, m) ==
        if |Escape(m)| <= room then header + [NEWLINE] + Escape(m)
        else header + [NEWLINE] + Escape(TrimRight(m[..CutPoint(m, if room < 0 then 0 else room)])) + MARK
  {
    AssembledShows(header, m, MARK, Room(header));
  }

  lemma AssembledShows(header: Text, m: Text, mark: Text, room: int)
    requires Valid(m) && m != []
    ensures Assembled(header, Escape(m), mark, room) ==
      if |Escape(m)| <= room then header + [NEWLINE] + Escape(m)
      else header + [NEWLINE] + Escape(TrimRight(m[..CutPoint(m, if room < 0 then 0 else room)])) + mark
  {
    EscapeEmptyIff(m);
    if |Escape(m)| > room { CutBodyIsEscapedPrefix(m, Floor(room)); }
  }

  /** With a valid header and a valid message the text is valid. */
  lemma MessageValid(header: Text, m: Text)
    requires Valid(header) && Valid(m)
    ensures Valid(Message(header, m))
  {
    var body, room := Escape(m), Room(header);
    var cut := Floor(room);
    EscapeValid(m);
    AsciiValid([NEWLINE]);
    ValidConcat(header, [NEWLINE]);
    if body != [] && |body| > room {
      var t := Trim(body[..cut]);
      TrimValid(body[..cut]);
      ValidConcat(header + [NEWLINE], t);
      MarkValid();
      ValidConcat(header + [NEWLINE] + t, MARK);
    } else {
      ValidConcat(header + [NEWLINE], body);
    }
  }

  lemma MarkValid()
    ensures Valid(MARK)
  {
    RuneBetweenAscii(BLANK, ELLIPSIS, NOTE);
  }

  lemma RuneBetweenAscii(a: Text, r: Text, b: Text)
    requires Ascii(a) && RuneLen(r) == |r| > 0 && Ascii(b)
    ensures Valid(a + r + b)
  {
    AsciiValid(a);
    AsciiValid(b);
    assert r[|r|..] == [];
    ValidConcat(a, r);
    ValidConcat(a + r, b);
  }

  // ---------------------------------------------------------------------- the header

  // What the text says of an alert. `stamp` is the formatted time; a test notification has a
  // title of its own.
  datatype Alert = Alert(resolved: bool, test: bool, severity: Text, source: Text, entity: Text, stamp: Text, message: Text)

  // ASCII literals as bytes.
  function Lit(s: string): (t: Text)
    ensures Ascii(t)
  {
    seq(|s|, i requires 0 <= i < |s| => if s[i] as int < 0x80 then s[i] as int else 63)
  }

  const CHECK_MARK: Text := [0xE2, 0x9C, 0x85]
  const RED: Text := [0xF0, 0x9F, 0x94, 0xB4]
  const ORANGE: Text := [0xF0, 0x9F, 0x9F, 0xA0]
  const GREEN: Text := [0xF0, 0x9F, 0x9F, 0xA2]
  const MIDDLE_DOT: Text := [0xC2, 0xB7]

  function Emoji(a: Alert): Text {
    if a.resolved then CHECK_MARK
    else if a.severity == Lit("critical") then RED
    else if a.severity == Lit("warning") then ORANGE
    else GREEN
  }

  function Title(a: Alert): Text {
    if a.test then Lit("maintenant Test Notification")
    else if a.resolved then Lit("Resolved: ") + a.entity
    else Lit("Alert: ") + a.entity
  }

  function Line(name: string, value: Text): Text {
    Lit("<b>" + name + "</b> ") + MIDDLE_DOT + Lit(" ") + value + [NEWLINE]
  }

  function Top(a: Alert): Text {
    Emoji(a) + Lit(" <b>") + Escape(Title(a)) + Lit("</b>\n\n")
  }

  function Header(a: Alert): Text {
    Top(a) + (if a.resolved then [] else Line("Severity", Escape(a.severity)))
    + Line("Source", Escape(a.source)) + Line("Entity", Escape(a.entity))
    + Line(if a.resolved then "Resolved" else "Fired", a.stamp)
  }

  lemma OneRuneValid(r: Text)
    requires RuneLen(r) == |r| > 0
    ensures Valid(r)
  {
    assert r[|r|..] == [];
  }

  lemma LitValid(s: string)
    ensures Valid(Lit(s))
  {
    AsciiValid(Lit(s));
  }

  lemma LineValid(name: string, value: Text)
    requires Valid(value)
    ensures Valid(Line(name, value))
  {
    var tag := Lit("<b>" + name + "</b> ");
    LitValid("<b>" + name + "</b> ");
    OneRuneValid(MIDDLE_DOT);
    LitValid(" ");
    OneRuneValid([NEWLINE]);
    ValidConcat(tag, MIDDLE_DOT);
    ValidConcat(tag + MIDDLE_DOT, Lit(" "));
    ValidConcat(tag + MIDDLE_DOT + Lit(" "), value);
    ValidConcat(tag + MIDDLE_DOT + Lit(" ") + value, [NEWLINE]);
  }

  ghost predicate FieldsValid(a: Alert) {
    Valid(a.severity) && Valid(a.source) && Valid(a.entity) && Valid(a.stamp) && Valid(a.message)
  }

  lemma TitleValid(a: Alert)
    requires Valid(a.entity)
    ensures Valid(Escape(Title(a)))
  {
    LitValid("maintenant Test Notification");
    LitValid("Resolved: ");
    LitValid("Alert: ");
    ValidConcat(Lit("Resolved: "), a.entity);
    ValidConcat(Lit("Alert: "), a.entity);
    EscapeValid(Title(a));
  }

  lemma EmojiValid(a: Alert)
    ensures Valid(Emoji(a))
  {
    OneRuneValid(CHECK_MARK);
    OneRuneValid(RED);
    OneRuneValid(ORANGE);
    OneRuneValid(GREEN);
  }

  lemma TopValid(a: Alert)
    requires Valid(a.entity)
    ensures Valid(Top(a))
  {
    EmojiValid(a);
    LitValid(" <b>");
    TitleValid(a);
    LitValid("</b>\n\n");
    ValidConcat(Emoji(a), Lit(" <b>"));
    ValidConcat(Emoji(a) + Lit(" <b>"), Escape(Title(a)));
    ValidConcat(Emoji(a) + Lit(" <b>") + Escape(Title(a)), Lit("</b>\n\n"));
  }

  lemma FiveValid(a: Text, b: Text, c: Text, d: Text, e: Text)
    requires Valid(a) && Valid(b) && Valid(c) && Valid(d) && Valid(e)
    ensures Valid(a + b + c + d + e)
  {
    ValidConcat(a, b);
    ValidConcat(a + b, c);
    ValidConcat(a + b + c, d);
    ValidConcat(a + b + c + d, e);
  }

  lemma HeaderValid(a: Alert)
    requires FieldsValid(a)
    ensures Valid(Header(a))
  {
    TopValid(a);
    EscapeValid(a.severity);
    EscapeValid(a.source);
    EscapeValid(a.entity);
    LineValid("Severity", Escape(a.severity));
    LineValid("Source", Escape(a.source));
    LineValid("Entity", Escape(a.entity));
    LineValid(if a.resolved then "Resolved" else "Fired", a.stamp);
    FiveValid(Top(a), if a.resolved then [] else Line("Severity", Escape(a.severity)),
              Line("Source", Escape(a.source)), Line("Entity", Escape(a.entity)),
              Line(if a.resolved then "Resolved" else "Fired", a.stamp));
  }

  // ---------------------------------------------------------- what the reader is shown

  // A labelled value as it should read.
  function Field(name: Text, value: Text): Text {
    [LT, 98, GT] + name + [LT, 47, 98, GT, 32, 0xC2, 0xB7, 32] + value + [10]
  }

  lemma LineReads(name: string, value: Text)
    ensures Line(name, value) == Field(Lit(name), value)
  {
    var l := Lit("<b>" + name + "</b> ");
    assert Lit("<b>") == [LT, 98, GT] && Lit("</b> ") == [LT, 47, 98, GT, 32];
    LitConcat("<b>" + name, "</b> ");
    LitConcat("<b>", name);
    assert l == [LT, 98, GT] + Lit(name) + [LT, 47, 98, GT, 32];
  }

  lemma LitConcat(a: string, b: string)
    ensures Lit(a + b) == Lit(a) + Lit(b)
  {
  }

  /** Below its first line the header gives, in this order, the severity unless the alert is
      resolved, the source, the entity, and when it fired or was resolved; every value that
      comes from the alert is escaped. */
  lemma HeaderReads(a: Alert)
    ensures Header(a) ==
      Top(a) + (if a.resolved then [] else Field(Lit("Severity"), Escape(a.severity)))
      + Field(Lit("Source"), Escape(a.source)) + Field(Lit("Entity"), Escape(a.entity))
      + (if a.resolved then Field(Lit("Resolved"), a.stamp) else Field(Lit("Fired"), a.stamp))
  {
    LineReads("Severity", Escape(a.severity));
    LineReads("Source", Escape(a.source));
    LineReads("Entity", Escape(a.entity));
    LineReads("Resolved", a.stamp);
    LineReads("Fired", a.stamp);
  }

  predicate Plain(s: Text) { AMP !in s && LT !in s && GT !in s }

  lemma {:induction false} EscapePlain(s: Text)
    requires Plain(s)
    ensures Escape(s) == s
  {
    if s != [] { EscapePlain(s[1..]); }
  }

  lemma TitleReads(prefix: string, entity: Text)
    requires Plain(Lit(prefix))
    ensures Escape(Lit(prefix) + entity) == Lit(prefix) + Escape(entity)
  {
    EscapeConcat(Lit(prefix), entity);
    EscapePlain(Lit(prefix));
  }

  /** The first line says in bold what happened and to what, behind a mark for how bad it is:
      a check mark once resolved, otherwise a red circle for "critical", an orange one for
      "warning" and a green one for anything else. */
  lemma TopReads(a: Alert)
    ensures var mark := if a.resolved then [0xE2, 0x9C, 0x85]
        else if a.severity == Lit("critical") then [0xF0, 0x9F, 0x94, 0xB4]
        else if a.severity == Lit("warning") then [0xF0, 0x9F, 0x9F, 0xA0]
        else [0xF0, 0x9F, 0x9F, 0xA2];
      var title := if a.test then Lit("maintenant Test Notification")
        else if a.resolved then Lit("Resolved: ") + Escape(a.entity) else Lit("Alert: ") + Escape(a.entity);
      Top(a) == mark + [32, LT, 98, GT] + title + [LT, 47, 98, GT, 10, 10]
  {
    assert Lit(" <b>") == [32, LT, 98, GT] && Lit("</b>\n\n") == [LT, 47, 98, GT, 10, 10];
    PlainTitles();
    TitleReads("Resolved: ", a.entity);
    TitleReads("Alert: ", a.entity);
    EscapePlain(Lit("maintenant Test Notification"));
  }

  lemma PlainTitles()
    ensures Plain(Lit("Resolved: ")) && Plain(Lit("Alert: ")) && Plain(Lit("maintenant Test Notification"))
  {
    LitPlain("Resolved: ");
    LitPlain("Alert: ");
    LitPlain("maintenant Test Notification");
  }

  lemma LitPlain(s: string)
    requires forall i :: 0 <= i < |s| ==> s[i] != '&' && s[i] != '<' && s[i] != '>'
    ensures Plain(Lit(s))
  {
  }

  // The mark reads as a blank line, an ellipsis and the note.
  lemma MarkReads()
    ensures MARK == [10, 10, 0xE2, 0x80, 0xA6] + Lit(" (message truncated)") && |MARK| == 25
  {
    assert Lit(" (message truncated)") == NOTE;
  }

  // The builder appends the header line by line.
  method BuildHeader(a: Alert) returns (b: Text)
    ensures b == Header(a)
  {
    b := Top(a);
    if !a.resolved {
      b := b + Line("Severity", Escape(a.severity));
    }
    b := b + Line("Source", Escape(a.source));
    b := b + Line("Entity", Escape(a.entity));
    b := b + Line(if a.resolved then "Resolved" else "Fired", a.stamp);
  }

  /** The text of an alert: header and message, within the limit exactly when the header
      leaves room, and valid UTF-8 whenever the alert's fields are. */
  method BuildTelegramMessage(a: Alert) returns (r: Text)
    ensures r == Message(Header(a), a.message)
    ensures |r| <= 4096 <==> |Header(a)| + 26 <= 4096 || (a.message == [] && |Header(a)| <= 4096)
    ensures FieldsValid(a) ==> Valid(r)
  {
    var header := BuildHeader(a);
    r := BuildMessage(header, a.message);
    WithinLimitIff(header, a.message);
    MarkReads();
    if FieldsValid(a) {
      HeaderValid(a);
      MessageValid(header, a.message);
    }
  }
}
