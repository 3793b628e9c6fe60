/** The few string operations the source relies on, over the ASCII range. */
module Text {

  /** The ASCII characters that `str.strip`, `str.split` and `\s` treat as white space. */
  predicate IsSpace(c: char) {
    '\t' <= c <= '\r' || '\U{1c}' <= c <= ' '
  }

  function StripLeft(s: string): (r: string)
    ensures |r| <= |s|
  {
    if s != "" && IsSpace(s[0]) then StripLeft(s[1..]) else s
  }

  function StripRight(s: string): (r: string)
    ensures |r| <= |s|
  {
    if s != "" && IsSpace(s[|s| - 1]) then StripRight(s[..|s| - 1]) else s
  }

  function Strip(s: string): string {
    StripRight(StripLeft(s))
  }

  function LowerChar(c: char): char {
    if 'A' <= c <= 'Z' then (c as int + 32) as char else c
  }

  function Lower(s: string): (r: string)
    ensures |r| == |s|
  {
    seq(|s|, i requires 0 <= i < |s| => LowerChar(s[i]))
  }

  function NormalizeEmail(email: string): string {
    Lower(Strip(email))
  }

  /** No white space at either end. */
  predicate Trimmed(s: string) {
    s != "" ==> !IsSpace(s[0]) && !IsSpace(s[|s| - 1])
  }

  /** What stripping on the left removes is a run of white space, and all of it. */
  lemma {:induction false} StripLeftShape(s: string)
    ensures var r := StripLeft(s);
      && r == s[|s| - |r|..]
      && (r != "" ==> !IsSpace(r[0]))
      && forall i :: 0 <= i < |s| - |r| ==> IsSpace(s[i])
  {
    if s != "" && IsSpace(s[0]) {
      StripLeftShape(s[1..]);
      var r := StripLeft(s);
      forall i | 0 <= i < |s| - |r| ensures IsSpace(s[i]) {
        if 0 < i { assert s[i] == s[1..][i - 1]; }
      }
    }
  }

  lemma {:induction false} StripRightShape(s: string)
    ensures var r := StripRight(s);
      && r == s[..|r|]
      && (r != "" ==> !IsSpace(r[|r| - 1]))
      && forall i :: |r| <= i < |s| ==> IsSpace(s[i])
  {
    if s != "" && IsSpace(s[|s| - 1]) {
      StripRightShape(s[..|s| - 1]);
    }
  }

  lemma {:induction false} StripTrims(s: string)
    ensures Trimmed(Strip(s))
  {
    StripLeftShape(s);
    StripRightShape(StripLeft(s));
  }

  lemma {:induction false} StripOfTrimmed(s: string)
    requires Trimmed(s)
    ensures Strip(s) == s
  {
  }

  lemma {:induction false} LowerIsIdempotent(s: string)
    ensures Lower(Lower(s)) == Lower(s)
  {
  }

  lemma {:induction false} LowerKeepsTrimmed(s: string)
    ensures Trimmed(s) <==> Trimmed(Lower(s))
  {
    assert forall c: char :: IsSpace(LowerChar(c)) <==> IsSpace(c);
  }

  /** An address that has been normalised once is a fixed point. */
  lemma {:induction false} NormalizeEmailIsIdempotent(email: string)
    ensures NormalizeEmail(NormalizeEmail(email)) == NormalizeEmail(email)
  {
    StripTrims(email);
    LowerKeepsTrimmed(Strip(email));
    StripOfTrimmed(NormalizeEmail(email));
    LowerIsIdempotent(Strip(email));
  }

  /** The characters `str.strip` takes for white space, one by one. */
  lemma {:induction false} SpaceCharacters(c: char)
    ensures IsSpace(c) <==>
      c in {' ', '\t', '\n', '\r', '\U{0b}', '\U{0c}', '\U{1c}', '\U{1d}', '\U{1e}', '\U{1f}'}
  {
  }

  /** The same character, but for the case of a letter: in ASCII a small letter comes 32 after its capital. */
  predicate SameLetter(a: char, b: char) {
    || a == b
    || ('A' <= a <= 'Z' && b as int == a as int + 32)
    || ('A' <= b <= 'Z' && a as int == b as int + 32)
  }

  predicate SameLetters(a: string, b: string) {
    |a| == |b| && forall i :: 0 <= i < |a| ==> SameLetter(a[i], b[i])
  }

  /** Lowering makes two texts equal exactly when they differ in the case of letters alone. */
  lemma {:induction false} LowerOfSameLetters(a: string, b: string)
    ensures SameLetters(a, b) <==> Lower(a) == Lower(b)
  {
    if |a| == |b| {
      forall i | 0 <= i < |a| ensures SameLetter(a[i], b[i]) <==> Lower(a)[i] == Lower(b)[i] {
      }
    }
  }

  /**
   Addresses are the same but for white space around them and the case of their letters, exactly when their normal forms
   are equal.
   */
  lemma {:induction false} SpellingsNormalizeTheSame(
    left: string, email: string, right: string, left': string, other: string, right': string)
    requires forall c :: c in left || c in right || c in left' || c in right' ==> IsSpace(c)
    requires Trimmed(email) && Trimmed(other)
    ensures NormalizeEmail(left + email + right) == NormalizeEmail(left' + other + right') <==>
      SameLetters(email, other)
  {
    StripIgnoresPadding(left, email, right);
    StripIgnoresPadding(left', other, right');
    StripOfTrimmed(email);
    StripOfTrimmed(other);
    LowerOfSameLetters(email, other);
  }

  lemma {:induction false} StripIgnoresPadding(left: string, s: string, right: string)
    requires forall c :: c in left || c in right ==> IsSpace(c)
    ensures Strip(left + s + right) == Strip(s)
  {
    StripLeftSkips(left, s + right);
    assert left + s + right == left + (s + right);
    StripLeftShape(s);
    if StripLeft(s) == "" {
      StripLeftSkips(s + right, "");
      assert forall c :: c in s ==> IsSpace(c) by {
        forall c | c in s ensures IsSpace(c) { var i :| 0 <= i < |s| && s[i] == c; }
      }
      assert s + right + "" == s + right;
    } else {
      StripLeftKeepsTail(s, right);
      StripRightSkips(StripLeft(s), right);
    }
  }

  lemma {:induction false} StripLeftSkips(pad: string, s: string)
    requires forall c :: c in pad ==> IsSpace(c)
    ensures StripLeft(pad + s) == StripLeft(s)
  {
    if pad == "" {
      assert pad + s == s;
    } else {
      assert (pad + s)[1..] == pad[1..] + s;
      StripLeftSkips(pad[1..], s);
    }
  }

  lemma {:induction false} StripLeftKeepsTail(s: string, tail: string)
    requires StripLeft(s) != ""
    ensures StripLeft(s + tail) == StripLeft(s) + tail
  {
    if IsSpace(s[0]) {
      assert (s + tail)[1..] == s[1..] + tail;
      StripLeftKeepsTail(s[1..], tail);
    }
  }

  lemma {:induction false} StripRightSkips(s: string, pad: string)
    requires forall c :: c in pad ==> IsSpace(c)
    ensures StripRight(s + pad) == StripRight(s)
  {
    if pad == "" {
      assert s + pad == s;
    } else {
      assert (s + pad)[..|s + pad| - 1] == s + pad[..|pad| - 1];
      assert pad[|pad| - 1] in pad;
      StripRightSkips(s, pad[..|pad| - 1]);
    }
  }

  lemma {:induction false} LowerCommutesWithStrip(s: string)
    ensures Strip(Lower(s)) == Lower(Strip(s))
  {
    LowerCommutesWithStripLeft(s);
    LowerCommutesWithStripRight(StripLeft(s));
  }

  lemma {:induction false} LowerCommutesWithStripLeft(s: string)
    ensures StripLeft(Lower(s)) == Lower(StripLeft(s))
  {
    if s != "" && IsSpace(s[0]) {
      assert Lower(s)[1..] == Lower(s[1..]);
      LowerCommutesWithStripLeft(s[1..]);
    }
  }

  lemma {:induction false} LowerCommutesWithStripRight(s: string)
    ensures StripRight(Lower(s)) == Lower(StripRight(s))
  {
    if s != "" && IsSpace(s[|s| - 1]) {
      assert Lower(s)[..|s| - 1] == Lower(s[..|s| - 1]);
      LowerCommutesWithStripRight(s[..|s| - 1]);
    }
  }
}
