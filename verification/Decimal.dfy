/** Decimal rendering and parsing of unsigned integers, as `format!("{n}")` and
    `str::parse::<u64>` do. Every wire id of the program is a fixed prefix
    followed by such a rendering, so uniqueness of ids rests on this module. */
module Decimal {
  import opened Wrappers

  predicate IsDigit(c: char) {
    '0' <= c <= '9'
  }

  function DigitChar(d: nat): (c: char)
    requires d < 10
    ensures IsDigit(c) && DigitValue(c) == d
  {
    ('0' as int + d) as char
  }

  function DigitValue(c: char): (d: nat)
    requires IsDigit(c)
    ensures d < 10
  {
    c as int - '0' as int
  }

  function Render(n: nat): (s: string)
    ensures s != [] && forall i | 0 <= i < |s| :: IsDigit(s[i])
  {
    if n < 10 then [DigitChar(n)] else Render(n / 10) + [DigitChar(n % 10)]
  }

  /** The number a digit string denotes; `None` when it is empty or holds
      anything but digits. Leading zeros are accepted, as the parser does. */
  function Parse(s: string): Option<nat> {
    if s == [] || !IsDigit(s[|s| - 1]) then None
    else if |s| == 1 then Some(DigitValue(s[0]))
    else match Parse(s[..|s| - 1])
      case None => None
      case Some(front) => Some(10 * front + DigitValue(s[|s| - 1]))
  }

  lemma {:induction false} ParsedDigit(s: string)
    requires Parse(s).Some?
    ensures s != [] && IsDigit(s[0])
  {
    if |s| > 1 {
      ParsedDigit(s[..|s| - 1]);
    }
  }

  lemma {:induction false} ParseRender(n: nat)
    ensures Parse(Render(n)) == Some(n)
  {
    if n >= 10 {
      ParseRender(n / 10);
      var s := Render(n);
      assert s[..|s| - 1] == Render(n / 10);
      assert s[|s| - 1] == DigitChar(n % 10);
    }
  }

  /** Without a superfluous leading zero, rendering undoes parsing. */
  lemma {:induction false} RenderParse(s: string)
    requires Parse(s).Some? && (|s| == 1 || s[0] != '0')
    ensures Render(Parse(s).value) == s
    ensures |s| > 1 ==> Parse(s).value > 0
  {
    if |s| == 1 {
      assert s == [s[0]];
    } else {
      var front := s[..|s| - 1];
      RenderParse(front);
      assert front[0] == s[0] && Parse(front).value > 0 by {
        if |front| == 1 {
          assert DigitValue(s[0]) > 0;
        }
      }
      RenderSnoc(Parse(front).value, s[|s| - 1]);
      hide Render;
      assert s == front + [s[|s| - 1]];
    }
  }

  lemma RenderSnoc(front: nat, c: char)
    requires front > 0 && IsDigit(c)
    ensures Render(10 * front + DigitValue(c)) == Render(front) + [c]
  {
    var n := 10 * front + DigitValue(c);
    assert n / 10 == front && n % 10 == DigitValue(c);
  }

  lemma {:induction false} RenderHasNoLeadingZero(n: nat)
    ensures Render(n)[0] == '0' ==> n == 0 && |Render(n)| == 1
  {
    if n >= 10 {
      RenderHasNoLeadingZero(n / 10);
    }
  }

  lemma RenderInjective(m: nat, n: nat)
    requires Render(m) == Render(n)
    ensures m == n
  {
    ParseRender(m);
    ParseRender(n);
  }

  /** A fixed prefix keeps renderings apart. */
  lemma PrefixedInjective(prefix: string, m: nat, n: nat)
    requires prefix + Render(m) == prefix + Render(n)
    ensures m == n
  {
    assert (prefix + Render(m))[|prefix|..] == Render(m);
    assert (prefix + Render(n))[|prefix|..] == Render(n);
    RenderInjective(m, n);
  }
}
