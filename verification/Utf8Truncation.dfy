/** UTF-8 as RFC 3629 defines it, and the truncation of instruction files to a
    byte budget. */
module Utf8Truncation {
  import opened Wrappers

  type Byte = b: int | 0 <= b < 256

  /** A character: a Unicode scalar value. */
  type Scalar = c: int | 0 <= c < 0xD800 || 0xE000 <= c < 0x110000

  // ----- the encoding (section 3 of RFC 3629) ----------------------------

  /** A continuation byte holding the six low bits. */
  function TailOf(c: int): Byte {
    0x80 + c % 64
  }

  function EncodeChar(c: Scalar): seq<Byte> {
    if c < 0x80 then [c]
    else if c < 0x800 then [0xC0 + c / 64, TailOf(c)]
    else if c < 0x1_0000 then [0xE0 + c / 64 / 64, TailOf(c / 64), TailOf(c)]
    else [0xF0 + c / 64 / 64 / 64, TailOf(c / 64 / 64), TailOf(c / 64), TailOf(c)]
  }

  function Encode(text: seq<Scalar>): seq<Byte> {
    if text == [] then [] else EncodeChar(text[0]) + Encode(text[1..])
  }

  // ----- well-formed byte strings (section 4 of RFC 3629) ----------------

  predicate Tail(b: Byte) {
    0x80 <= b <= 0xBF
  }

  /** The second byte is narrowed after some leading bytes, which shuts out
      overlong forms, surrogates and values past U+10FFFF. */
  predicate Second(lead: Byte, b: Byte) {
    match lead
    case 0xE0 => 0xA0 <= b <= 0xBF
    case 0xED => 0x80 <= b <= 0x9F
    case 0xF0 => 0x90 <= b <= 0xBF
    case 0xF4 => 0x80 <= b <= 0x8F
    case _ => Tail(b)
  }

  /** Length of a character by its leading byte; 0 for a byte that leads none. */
  function LeadLength(b: Byte): nat {
    if b <= 0x7F then 1
    else if 0xC2 <= b <= 0xDF then 2
    else if 0xE0 <= b <= 0xEF then 3
    else if 0xF0 <= b <= 0xF4 then 4
    else 0
  }

  predicate StartsWithChar(s: seq<Byte>) {
    && s != []
    && var n := LeadLength(s[0]);
       && 0 < n <= |s|
       && (n >= 2 ==> Second(s[0], s[1]))
       && (n >= 3 ==> Tail(s[2]))
       && (n >= 4 ==> Tail(s[3]))
  }

  predicate Valid(s: seq<Byte>) {
    s == [] || (StartsWithChar(s) && Valid(s[LeadLength(s[0])..]))
  }

  // ----- the two definitions agree --------------------------------------

  /** Appends the six bits of a continuation byte. */
  function Join(high: int, b: Byte): int {
    high * 64 + (b - 0x80)
  }

  function DecodeInt(s: seq<Byte>): int
    requires StartsWithChar(s)
  {
    match LeadLength(s[0])
    case 1 => s[0]
    case 2 => Join(s[0] - 0xC0, s[1])
    case 3 => Join(Join(s[0] - 0xE0, s[1]), s[2])
    case _ => Join(Join(Join(s[0] - 0xF0, s[1]), s[2]), s[3])
  }

  lemma JoinSplits(high: int, b: Byte)
    requires Tail(b)
    ensures Join(high, b) / 64 == high && TailOf(Join(high, b)) == b
  {
  }

  function DecodeChar(s: seq<Byte>): Scalar
    requires StartsWithChar(s)
  {
    DecodeInt(s)
  }

  function Decode(s: seq<Byte>): seq<Scalar>
    requires Valid(s)
  {
    if s == [] then [] else [DecodeChar(s)] + Decode(s[LeadLength(s[0])..])
  }

  lemma EncodedChar(c: Scalar, rest: seq<Byte>)
    ensures StartsWithChar(EncodeChar(c) + rest) && LeadLength(EncodeChar(c)[0]) == |EncodeChar(c)|
    ensures DecodeInt(EncodeChar(c) + rest) == c
  {
  }

  lemma DecodedTwo(a: Byte, b: Byte)
    requires StartsWithChar([a, b]) && LeadLength(a) == 2
    ensures EncodeChar(DecodeInt([a, b])) == [a, b]
  {
  }

  lemma EncodedThree(x0: int, x1: int, c: Scalar, s: seq<Byte>)
    requires 0x800 <= c < 0x1_0000 && x1 == c / 64 && x0 == x1 / 64
    requires |s| == 3 && s[0] == 0xE0 + x0 && s[1] == TailOf(x1) && s[2] == TailOf(c)
    ensures EncodeChar(c) == s
  {
    hide TailOf;
  }

  lemma DecodedThree(a: Byte, b: Byte, c: Byte)
    requires StartsWithChar([a, b, c]) && LeadLength(a) == 3
    ensures EncodeChar(DecodeInt([a, b, c])) == [a, b, c]
  {
    var x0 := a - 0xE0;
    var x1 := Join(x0, b);
    var x2 := Join(x1, c);
    assert 0x800 <= x2 < 0x1_0000 && (x2 < 0xD800 || 0xE000 <= x2) && DecodeInt([a, b, c]) == x2;
    JoinSplits(x0, b);
    JoinSplits(x1, c);
    hide Join, TailOf, DecodeInt, StartsWithChar, LeadLength, EncodeChar;
    EncodedThree(x0, x1, x2, [a, b, c]);
  }

  lemma EncodedFour(x0: int, x1: int, x2: int, c: Scalar, s: seq<Byte>)
    requires 0x1_0000 <= c && x2 == c / 64 && x1 == x2 / 64 && x0 == x1 / 64
    requires |s| == 4 && s[0] == 0xF0 + x0 && s[1] == TailOf(x1) && s[2] == TailOf(x2) && s[3] == TailOf(c)
    ensures EncodeChar(c) == s
  {
  }

  lemma DecodedFour(a: Byte, b: Byte, c: Byte, d: Byte)
    requires StartsWithChar([a, b, c, d]) && LeadLength(a) == 4
    ensures EncodeChar(DecodeInt([a, b, c, d])) == [a, b, c, d]
  {
    var x0 := a - 0xF0;
    var x1 := Join(x0, b);
    var x2 := Join(x1, c);
    var x3 := Join(x2, d);
    assert 0x1_0000 <= x3 < 0x11_0000 && DecodeInt([a, b, c, d]) == x3;
    JoinSplits(x0, b);
    JoinSplits(x1, c);
    JoinSplits(x2, d);
    hide Join, TailOf, DecodeInt, StartsWithChar, LeadLength, EncodeChar;
    EncodedFour(x0, x1, x2, x3, [a, b, c, d]);
  }

  lemma DecodedChar(s: seq<Byte>)
    requires StartsWithChar(s)
    ensures EncodeChar(DecodeChar(s)) == s[..LeadLength(s[0])]
  {
    hide EncodeChar, Join;
    match LeadLength(s[0])
    case 1 => DecodedOne(s[0]);
    case 2 => DecodedTwo(s[0], s[1]);
    case 3 => DecodedThree(s[0], s[1], s[2]);
    case _ => DecodedFour(s[0], s[1], s[2], s[3]);
  }

  lemma DecodedOne(a: Byte)
    requires a <= 0x7F
    ensures EncodeChar(a) == [a]
  {
  }

  lemma {:induction false} EncodedIsValid(text: seq<Scalar>)
    ensures Valid(Encode(text)) && Decode(Encode(text)) == text
  {
    if text != [] {
      var c, rest := EncodeChar(text[0]), Encode(text[1..]);
      EncodedIsValid(text[1..]);
      EncodedChar(text[0], rest);
      assert (c + rest)[0] == c[0] && (c + rest)[|c|..] == rest;
    }
  }

  lemma EncodeCons(c: Scalar, rest: seq<Scalar>)
    ensures Encode([c] + rest) == EncodeChar(c) + Encode(rest)
  {
  }

  lemma DecodeCons(s: seq<Byte>)
    requires Valid(s) && s != []
    ensures StartsWithChar(s) && Valid(s[LeadLength(s[0])..])
    ensures Decode(s) == [DecodeChar(s)] + Decode(s[LeadLength(s[0])..])
  {
  }

  lemma {:induction false} ValidIsEncoded(s: seq<Byte>)
    requires Valid(s)
    ensures Encode(Decode(s)) == s
    decreases |s|
  {
    if s != [] {
      DecodeCons(s);
      var n := LeadLength(s[0]);
      ValidIsEncoded(s[n..]);
      EncodesAgain(s, n, Decode(s[n..]));
    }
  }

  lemma EncodesAgain(s: seq<Byte>, n: nat, rest: seq<Scalar>)
    requires StartsWithChar(s) && n == LeadLength(s[0]) && Encode(rest) == s[n..]
    ensures Encode([DecodeChar(s)] + rest) == s
  {
    assert 0 < n <= |s|;
    hide *;
    DecodedChar(s);
    EncodeCons(DecodeChar(s), rest);
  }

  // ----- boundaries -----------------------------------------------------

  /** The library's byte-level test: an end of the string, or a byte that is not
      a continuation byte. */
  predicate IsCharBoundary(s: seq<Byte>, i: nat) {
    i == 0 || i == |s| || (i < |s| && (s[i] < 0x80 || s[i] >= 0xC0))
  }

  /** Some first characters of the text fill exactly i bytes. */
  ghost predicate BetweenChars(text: seq<Scalar>, i: nat) {
    exists k :: 0 <= k <= |text| && |Encode(text[..k])| == i
  }

  /** Inside the first character there is no boundary and no valid prefix ends. */
  lemma InsideFirstChar(s: seq<Byte>, i: nat)
    requires StartsWithChar(s) && 0 < i < LeadLength(s[0])
    ensures !IsCharBoundary(s, i) && !Valid(s[..i])
  {
  }

  lemma PastFirstChar(s: seq<Byte>, i: nat)
    requires Valid(s) && s != [] && LeadLength(s[0]) <= i <= |s|
    ensures var n := LeadLength(s[0]);
            && (IsCharBoundary(s, i) <==> IsCharBoundary(s[n..], i - n))
            && (Valid(s[..i]) <==> Valid(s[n..][..i - n]))
  {
    PastBoundary(s, i);
    PastValid(s, i);
  }

  lemma PastBoundary(s: seq<Byte>, i: nat)
    requires Valid(s) && s != [] && LeadLength(s[0]) <= i <= |s|
    ensures IsCharBoundary(s, i) <==> IsCharBoundary(s[LeadLength(s[0])..], i - LeadLength(s[0]))
  {
    RestStarts(s);
    hide LeadLength, Valid, StartsWithChar;
    assert i < |s| ==> s[LeadLength(s[0])..][i - LeadLength(s[0])] == s[i];
  }

  lemma PastValid(s: seq<Byte>, i: nat)
    requires Valid(s) && s != [] && LeadLength(s[0]) <= i <= |s|
    ensures Valid(s[..i]) <==> Valid(s[LeadLength(s[0])..][..i - LeadLength(s[0])])
  {
    PrefixStarts(s, i);
    RestValid(s[..i]);
    hide LeadLength, Valid, StartsWithChar;
    assert s[..i][LeadLength(s[0])..] == s[LeadLength(s[0])..][..i - LeadLength(s[0])];
  }

  /** After the first character comes the end or another leading byte. */
  lemma RestStarts(s: seq<Byte>)
    requires Valid(s) && s != []
    ensures var n := LeadLength(s[0]); 0 < n <= |s| && IsCharBoundary(s, n)
  {
  }

  lemma PrefixStarts(s: seq<Byte>, i: nat)
    requires StartsWithChar(s) && LeadLength(s[0]) <= i <= |s|
    ensures StartsWithChar(s[..i]) && s[..i][0] == s[0]
  {
    assert forall j | 0 <= j < i :: s[..i][j] == s[j];
  }

  lemma RestValid(s: seq<Byte>)
    requires StartsWithChar(s)
    ensures Valid(s) <==> Valid(s[LeadLength(s[0])..])
  {
  }

  /** The byte test is true exactly where a prefix is valid text. */
  lemma {:induction false} BoundaryIsValidPrefix(s: seq<Byte>, i: nat)
    requires Valid(s) && i <= |s|
    ensures IsCharBoundary(s, i) <==> Valid(s[..i])
    decreases |s|
  {
    if i == 0 {
      assert s[..i] == [];
    } else if i < LeadLength(s[0]) {
      InsideFirstChar(s, i);
    } else {
      PastFirstChar(s, i);
      BoundaryIsValidPrefix(s[LeadLength(s[0])..], i - LeadLength(s[0]));
    }
  }

  lemma BetweenStep(text: seq<Scalar>, i: nat)
    requires text != []
    ensures var n := |EncodeChar(text[0])|;
            BetweenChars(text, i) <==> i == 0 || (i >= n && BetweenChars(text[1..], i - n))
  {
    hide EncodeChar;
    var n := |EncodeChar(text[0])|;
    assert forall k | 0 < k <= |text| :: text[..k] == [text[0]] + text[1..][..k - 1];
    forall k | 0 < k <= |text| ensures |Encode(text[..k])| == n + |Encode(text[1..][..k - 1])| {
      EncodeCons(text[0], text[1..][..k - 1]);
    }
    assert Encode(text[..0]) == [];
    if i >= n && BetweenChars(text[1..], i - n) {
      var k :| 0 <= k <= |text| - 1 && |Encode(text[1..][..k])| == i - n;
      assert |Encode(text[..k + 1])| == i;
    }
  }

  /** It coincides with the character boundaries of the decoded text. */
  lemma {:induction false} BoundaryIsBetweenChars(s: seq<Byte>, i: nat)
    requires Valid(s) && i <= |s|
    ensures IsCharBoundary(s, i) <==> BetweenChars(Decode(s), i)
    decreases |s|
  {
    if s == [] {
      assert Encode(Decode(s)[..0]) == [];
    } else {
      var n := LeadLength(s[0]);
      DecodedChar(s);
      BetweenStep(Decode(s), i);
      assert Decode(s)[1..] == Decode(s[n..]);
      hide EncodeChar, DecodeChar;
      if 0 < i < n {
        InsideFirstChar(s, i);
      } else if i >= n {
        PastFirstChar(s, i);
        BoundaryIsBetweenChars(s[n..], i - n);
      }
    }
  }

  // ----- truncation -----------------------------------------------------

  /** How many bytes whole characters fill within a budget. */
  function Fitting(s: seq<Byte>, budget: nat): (n: nat)
    requires Valid(s)
    ensures n <= budget && n <= |s|
  {
    if s == [] || LeadLength(s[0]) > budget then 0
    else LeadLength(s[0]) + Fitting(s[LeadLength(s[0])..], budget - LeadLength(s[0]))
  }

  lemma {:induction false} FittingIsValid(s: seq<Byte>, budget: nat)
    requires Valid(s)
    ensures Valid(s[..Fitting(s, budget)])
    decreases |s|
  {
    if s == [] || LeadLength(s[0]) > budget {
      assert s[..0] == [];
    } else {
      FittingIsValid(s[LeadLength(s[0])..], budget - LeadLength(s[0]));
      PastFirstChar(s, Fitting(s, budget));
    }
  }

  lemma {:induction false} NothingLongerFits(s: seq<Byte>, budget: nat, e: nat)
    requires Valid(s) && Fitting(s, budget) < e <= budget && e <= |s|
    ensures !IsCharBoundary(s, e) && !Valid(s[..e])
    decreases |s|
  {
    if LeadLength(s[0]) > budget {
      InsideFirstChar(s, e);
    } else {
      NothingLongerFits(s[LeadLength(s[0])..], budget - LeadLength(s[0]), e - LeadLength(s[0]));
      PastFirstChar(s, e);
    }
  }

  lemma {:induction false} FittingLosesLittle(s: seq<Byte>, budget: nat)
    requires Valid(s)
    ensures if |s| <= budget then Fitting(s, budget) == |s| else budget - Fitting(s, budget) <= 3
    decreases |s|
  {
    if s != [] && LeadLength(s[0]) <= budget {
      FittingLosesLittle(s[LeadLength(s[0])..], budget - LeadLength(s[0]));
    }
  }

  function Ascii(text: string): seq<Scalar>
    requires forall i | 0 <= i < |text| :: text[i] < 128 as char
  {
    seq(|text|, i requires 0 <= i < |text| => text[i] as Scalar)
  }

  const MARKER_TEXT: seq<Scalar> := Ascii("\n\n[") + [0x2026] + Ascii(" instruction file truncated by zhive]")

  const MARKER: seq<Byte> := Encode(MARKER_TEXT)

  lemma BytesAssociate(a: seq<Byte>, b: seq<Byte>, c: seq<Byte>)
    ensures a + b + c == a + (b + c)
  {
  }

  lemma {:induction false} EncodeAppend(a: seq<Scalar>, b: seq<Scalar>)
    ensures Encode(a + b) == Encode(a) + Encode(b)
  {
    if a == [] {
      assert a + b == b;
    } else {
      hide Encode, EncodeChar;
      var c, rest := a[0], a[1..];
      assert a == [c] + rest && a + b == [c] + (rest + b);
      EncodeAppend(rest, b);
      EncodeCons(c, rest);
      EncodeCons(c, rest + b);
      BytesAssociate(EncodeChar(c), Encode(rest), Encode(b));
    }
  }

  lemma {:induction false} AsciiTakesOneByteEach(text: seq<Scalar>)
    requires forall i | 0 <= i < |text| :: text[i] < 0x80
    ensures |Encode(text)| == |text|
  {
    if text != [] {
      AsciiTakesOneByteEach(text[1..]);
    }
  }

  /** The marker is valid text of 43 bytes. */
  lemma MarkerBytes()
    ensures |MARKER| == 43 && Valid(MARKER)
  {
    EllipsisBytes();
    hide Encode, EncodeChar, Valid, Decode;
    EncodedIsValid(MARKER_TEXT);
    var start, end := Ascii("\n\n["), Ascii(" instruction file truncated by zhive]");
    EncodeAppend(start + [0x2026], end);
    EncodeAppend(start, [0x2026]);
    AsciiTakesOneByteEach(start);
    AsciiTakesOneByteEach(end);
  }

  lemma EllipsisBytes()
    ensures Encode([0x2026]) == [0xE2, 0x80, 0xA6]
  {
  }

  /** Keeps a text that fits; otherwise cuts at the last character boundary within
      the budget and appends the marker. */
  method TruncateOnBoundary(s: seq<Byte>, maxBytes: nat) returns (r: seq<Byte>)
    requires Valid(s)
    ensures r == if |s| <= maxBytes then s else s[..Fitting(s, maxBytes)] + MARKER
  {
    if |s| <= maxBytes {
      return s;
    }
    var end: nat := maxBytes;
    while end > 0 && !IsCharBoundary(s, end)
      invariant end <= maxBytes
      invariant forall e: nat | end < e <= maxBytes :: !IsCharBoundary(s, e)
    {
      end := end - 1;
    }
    BoundaryIsValidPrefix(s, end);
    FittingIsValid(s, maxBytes);
    BoundaryIsValidPrefix(s, Fitting(s, maxBytes));
    if Fitting(s, maxBytes) < end {
      NothingLongerFits(s, maxBytes, end);
    }
    hide Valid, IsCharBoundary;
    r := s[..end] + MARKER;
  }

  /** What is kept is the longest valid prefix that fits and loses at most three
      bytes of the budget; the whole result is valid text, and stays within the
      budget exactly when nothing had to be cut. */
  lemma TruncationMeaning(s: seq<Byte>, maxBytes: nat)
    requires Valid(s)
    ensures var end := Fitting(s, maxBytes);
            var r := if |s| <= maxBytes then s else s[..end] + MARKER;
            && Valid(s[..end]) && end <= maxBytes
            && (forall e | end < e <= maxBytes && e <= |s| :: !Valid(s[..e]))
            && (|s| > maxBytes ==> maxBytes - end <= 3)
            && Valid(r)
            && (|r| <= maxBytes <==> |s| <= maxBytes)
            && |r| <= maxBytes + |MARKER|
  {
    var end := Fitting(s, maxBytes);
    FittingIsValid(s, maxBytes);
    FittingLosesLittle(s, maxBytes);
    MarkerBytes();
    ValidConcat(s[..end], MARKER);
    forall e | end < e <= maxBytes && e <= |s| ensures !Valid(s[..e]) {
      NothingLongerFits(s, maxBytes, e);
    }
  }

  lemma {:induction false} ValidConcat(a: seq<Byte>, b: seq<Byte>)
    requires Valid(a) && Valid(b)
    ensures Valid(a + b)
  {
    ValidIsEncoded(a);
    ValidIsEncoded(b);
    EncodeAppend(Decode(a), Decode(b));
    EncodedIsValid(Decode(a) + Decode(b));
    hide Valid, Encode, Decode;
  }

  // ----- finding the instructions ---------------------------------------

  const MAX_INSTRUCTION_BYTES: nat := 32 * 1024

  /** The readable contents of the two candidate files of one directory, in order
      of preference. */
  datatype Directory = Directory(agents: Option<seq<Byte>>, claude: Option<seq<Byte>>)

  /** The file a directory offers: the preferred one, else the other. */
  predicate Offers(d: Directory, content: seq<Byte>) {
    d.agents == Some(content) || (d.agents.None? && d.claude == Some(content))
  }

  predicate OffersNothing(d: Directory) {
    d.agents.None? && d.claude.None?
  }

  datatype Instructions = Instructions(body: seq<Byte>, truncated: bool)

  /** Nearest directory first: the file of the first one that offers any, cut to
      32 KiB. */
  method FindInstructions(dirs: seq<Directory>) returns (r: Option<Instructions>)
    requires forall d, content | d in dirs && Offers(d, content) :: Valid(content)
    ensures r.None? <==> forall i | 0 <= i < |dirs| :: OffersNothing(dirs[i])
    ensures r.Some? ==>
              exists i, content :: 0 <= i < |dirs| && Offers(dirs[i], content)
                                   && (forall j | 0 <= j < i :: OffersNothing(dirs[j]))
                                   && (r.value.truncated <==> |content| > 32768)
                                   && r.value.body == if r.value.truncated
                                                      then content[..Fitting(content, 32768)] + MARKER
                                                      else content
  {
    hide Valid, Fitting;
    for d := 0 to |dirs|
      invariant forall i | 0 <= i < d :: OffersNothing(dirs[i])
    {
      for n := 0 to 2
        invariant n > 0 ==> dirs[d].agents.None?
        invariant n > 1 ==> dirs[d].claude.None?
      {
        var content := if n == 0 then dirs[d].agents else dirs[d].claude;
        if content.Some? {
          assert dirs[d] in dirs && Offers(dirs[d], content.value);
          var truncated := |content.value| > MAX_INSTRUCTION_BYTES;
          var body := TruncateOnBoundary(content.value, MAX_INSTRUCTION_BYTES);
          return Some(Instructions(body, truncated));
        }
      }
    }
    r := None;
  }
}
