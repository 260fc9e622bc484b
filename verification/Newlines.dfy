/** Line endings of prompt templates: CRLF is rewritten to LF. */
module Newlines {

  predicate PairAt(s: string, i: nat) {
    i + 1 < |s| && s[i] == '\r' && s[i + 1] == '\n'
  }

  predicate TripleAt(s: string, i: nat) {
    i + 2 < |s| && s[i] == '\r' && s[i + 1] == '\r' && s[i + 2] == '\n'
  }

  /** The text holds CR LF somewhere. */
  ghost predicate HasPair(s: string) {
    exists i: nat :: PairAt(s, i)
  }

  /** The text holds CR CR LF somewhere. */
  ghost predicate HasTriple(s: string) {
    exists i: nat :: TripleAt(s, i)
  }

  /** Left to right, every CR LF replaced, the library's `replace`. */
  function Replaced(s: string): string {
    if s == "" then ""
    else if PairAt(s, 0) then "\n" + Replaced(s[2..])
    else [s[0]] + Replaced(s[1..])
  }

  /** The fast form looks for a CR first. */
  function Normalize(content: string): string {
    if '\r' in content then Replaced(content) else content
  }

  /** Without the CRs that stand before an LF. */
  function WithoutPairedCr(s: string): string {
    if s == "" then ""
    else (if PairAt(s, 0) then "" else [s[0]]) + WithoutPairedCr(s[1..])
  }

  lemma PairIn(s: string)
    requires s != ""
    ensures HasPair(s) <==> PairAt(s, 0) || HasPair(s[1..])
    ensures HasTriple(s) <==> TripleAt(s, 0) || HasTriple(s[1..])
  {
    if i: nat :| PairAt(s, i) && i > 0 {
      assert PairAt(s[1..], i - 1);
    }
    if i: nat :| TripleAt(s, i) && i > 0 {
      assert TripleAt(s[1..], i - 1);
    }
    if i: nat :| PairAt(s[1..], i) {
      assert PairAt(s, i + 1);
    }
    if i: nat :| TripleAt(s[1..], i) {
      assert TripleAt(s, i + 1);
    }
  }

  lemma {:induction false} ReplacedIsWithout(s: string)
    ensures Replaced(s) == WithoutPairedCr(s)
    decreases |s|
  {
    if s != "" {
      if PairAt(s, 0) {
        ReplacedIsWithout(s[2..]);
        assert s[1..][0] == '\n' && s[1..][1..] == s[2..];
      } else {
        ReplacedIsWithout(s[1..]);
      }
    }
  }

  lemma {:induction false} NoCrNothingDropped(s: string)
    requires '\r' !in s
    ensures WithoutPairedCr(s) == s
  {
    if s != "" {
      NoCrNothingDropped(s[1..]);
    }
  }

  /** Both paths of the fast form drop exactly the CRs that stand before an LF. */
  lemma {:induction false} NormalizeIsReplacement(s: string)
    ensures Normalize(s) == Replaced(s) == WithoutPairedCr(s)
  {
    ReplacedIsWithout(s);
    if '\r' !in s {
      NoCrNothingDropped(s);
    }
  }

  lemma {:induction false} WithoutShrinks(s: string)
    ensures |WithoutPairedCr(s)| <= |s|
    ensures |WithoutPairedCr(s)| == |s| <==> !HasPair(s)
    ensures !HasPair(s) ==> WithoutPairedCr(s) == s
  {
    if s != "" {
      PairIn(s);
      WithoutShrinks(s[1..]);
    }
  }

  /** A text is left alone exactly when it holds no CR LF. */
  lemma NormalizeIdentity(s: string)
    ensures Normalize(s) == s <==> !HasPair(s)
  {
    NormalizeIsReplacement(s);
    WithoutShrinks(s);
  }

  lemma {:induction false} PairsLeft(s: string)
    ensures HasPair(WithoutPairedCr(s)) <==> HasTriple(s)
  {
    if s != "" {
      PairIn(s);
      PairsLeft(s[1..]);
      var rest := WithoutPairedCr(s[1..]);
      if PairAt(s, 0) {
        assert WithoutPairedCr(s) == rest;
      } else {
        PairIn([s[0]] + rest);
        assert ([s[0]] + rest)[1..] == rest;
        if |s| > 1 {
          assert s[1..][0] == s[1];
          assert PairAt(s[1..], 0) ==> s[1..][1..][0] == s[2];
        }
      }
    }
  }

  /** Normalising twice differs from once exactly on texts with CR CR LF. */
  lemma SecondNormalization(s: string)
    ensures Normalize(Normalize(s)) == Normalize(s) <==> !HasTriple(s)
  {
    NormalizeIdentity(Normalize(s));
    NormalizeIsReplacement(s);
    PairsLeft(s);
  }

  // ----- checking out with CRLF endings ----------------------------------

  /** Every LF written as CR LF. */
  function CheckedOut(s: string): string {
    if s == "" then ""
    else (if s[0] == '\n' then "\r\n" else [s[0]]) + CheckedOut(s[1..])
  }

  lemma {:induction false} WithoutCheckedOut(s: string)
    ensures WithoutPairedCr(CheckedOut(s)) == s
  {
    if s != "" {
      WithoutCheckedOut(s[1..]);
      var out, rest := CheckedOut(s), CheckedOut(s[1..]);
      if s[0] == '\n' {
        assert out[1..] == "\n" + rest && ("\n" + rest)[1..] == rest;
        assert PairAt(out, 0) && !PairAt("\n" + rest, 0);
      } else {
        assert out[1..] == rest;
        assert rest != "" ==> rest[0] != '\n';
        assert !PairAt(out, 0);
      }
    }
  }

  /** Normalising undoes the checkout, for every text. */
  lemma NormalizeUndoesCheckout(s: string)
    ensures Normalize(CheckedOut(s)) == s
  {
    WithoutCheckedOut(s);
    NormalizeIsReplacement(CheckedOut(s));
  }

  /** Only the LFs that have no CR yet; `before` is the character in front. */
  function CheckedOutLone(s: string, before: char): string {
    if s == "" then ""
    else (if s[0] == '\n' && before != '\r' then "\r\n" else [s[0]]) + CheckedOutLone(s[1..], s[0])
  }

  /** Under the checkout that spares existing CR LF, the original comes back
      exactly when it had none. */
  lemma NormalizeUndoesSparingCheckout(s: string)
    ensures Normalize(CheckedOutLone(s, '\n')) == s <==> !HasPair(s)
  {
    NormalizeIsReplacement(CheckedOutLone(s, '\n'));
    SparedIsDropped(s, '\n');
    WithoutShrinks(s);
  }

  lemma {:induction false} SparedIsDropped(s: string, before: char)
    ensures WithoutPairedCr(CheckedOutLone(s, before)) == WithoutPairedCr(s)
  {
    if s != "" {
      SparedIsDropped(s[1..], s[0]);
      var out, rest := CheckedOutLone(s, before), CheckedOutLone(s[1..], s[0]);
      if s[0] == '\n' && before != '\r' {
        assert out[1..] == "\n" + rest && ("\n" + rest)[1..] == rest;
        assert PairAt(out, 0) && !PairAt("\n" + rest, 0);
      } else {
        assert out[1..] == rest;
        assert PairAt(out, 0) <==> PairAt(s, 0);
      }
    }
  }

  /** Every LF has its CR. */
  ghost predicate AllPaired(t: string) {
    forall i | 0 <= i < |t| && t[i] == '\n' :: i > 0 && t[i - 1] == '\r'
  }

  /** Checking out undoes the normalisation exactly when every LF had its CR. */
  lemma CheckoutUndoesNormalize(t: string)
    ensures CheckedOut(Normalize(t)) == t <==> AllPaired(t)
  {
    NormalizeIsReplacement(t);
    CheckoutOfWithout(t);
  }

  /** A CR LF in front, or a character in front that neither is an LF nor pairs
      with one. */
  lemma PairedPast(t: string, n: nat)
    requires (n == 2 && PairAt(t, 0)) || (n == 1 && t != "" && t[0] != '\n' && !PairAt(t, 0))
    ensures AllPaired(t) <==> AllPaired(t[n..])
  {
  }

  lemma {:induction false} CheckoutOfWithout(t: string)
    ensures CheckedOut(WithoutPairedCr(t)) == t <==> AllPaired(t)
    decreases |t|
  {
    if t == "" {
      assert AllPaired(t);
    } else {
      hide AllPaired, PairAt;
      if PairAt(t, 0) {
        var u := t[2..];
        CheckoutOfWithout(u);
        assert t[1..][0] == '\n' && t[1..][1..] == u;
        assert WithoutPairedCr(t) == "\n" + WithoutPairedCr(u);
        assert ("\n" + WithoutPairedCr(u))[1..] == WithoutPairedCr(u);
        assert t == "\r\n" + u;
        PairedPast(t, 2);
      } else {
        var u := t[1..];
        CheckoutOfWithout(u);
        assert ([t[0]] + WithoutPairedCr(u))[1..] == WithoutPairedCr(u);
        assert t == [t[0]] + u;
        if t[0] == '\n' {
          assert CheckedOut(WithoutPairedCr(t))[0] == '\r';
        } else {
          PairedPast(t, 1);
        }
      }
    }
  }
}
