/** Subject normalisation: reply and forward prefixes, white space and case do not count. */
module Subjects {
  import opened Text

  /** The words a prefix may consist of, in any case. */
  predicate IsPrefixWord(word: string) {
    Lower(word) == "re" || Lower(word) == "fwd" || Lower(word) == "fw"
  }

  /** What is left after `word`, white space, a colon and more white space, if the text starts that way. */
  function AfterColon(text: string): (rest: string)
    requires StripLeft(text) != "" && StripLeft(text)[0] == ':'
    ensures |rest| < |text|
  {
    StripLeft(StripLeft(text)[1..])
  }

  predicate ColonFollows(text: string, n: nat)
    requires n <= |text|
  {
    StripLeft(text[n..]) != "" && StripLeft(text[n..])[0] == ':'
  }

  predicate StartsWithPrefix(text: string, n: nat) {
    n <= |text| && IsPrefixWord(text[..n]) && ColonFollows(text, n)
  }

  /** One substitution of the prefix pattern by nothing. */
  function DropPrefix(text: string): (rest: string)
    ensures rest == text || |rest| < |text|
  {
    if StartsWithPrefix(text, 2) then AfterColon(text[2..])
    else if StartsWithPrefix(text, 3) then AfterColon(text[3..])
    else text
  }

  /** Dropping prefixes until none is left. */
  function Unprefixed(text: string): string
    requires Trimmed(text)
    decreases |text|
  {
    var stripped := Strip(DropPrefix(text));
    StripTrims(DropPrefix(text));
    StripOfTrimmed(text);
    if stripped == text then text else Unprefixed(stripped)
  }

  function Normalize(subject: string): string {
    StripTrims(subject);
    Lower(Unprefixed(Strip(subject)))
  }

  method NormalizeSubject(subject: string) returns (normalized: string)
    ensures normalized == Normalize(subject)
  {
    StripTrims(subject);
    var text := Strip(subject);
    while true
      invariant Trimmed(text) && Normalize(subject) == Lower(Unprefixed(text))
      decreases |text|
    {
      var stripped := Strip(DropPrefix(text));
      StripTrims(DropPrefix(text));
      StripOfTrimmed(text);
      if stripped == text {
        break;
      }
      text := stripped;
    }
    normalized := Lower(text);
  }

  // ---------- Idempotence ----------

  lemma {:induction false} LowerOfSplit(s: string, n: nat)
    requires n <= |s|
    ensures Lower(s)[..n] == Lower(s[..n]) && Lower(s)[n..] == Lower(s[n..])
  {
  }

  lemma {:induction false} LowerCommutesWithStartsWithPrefix(text: string, n: nat)
    ensures StartsWithPrefix(Lower(text), n) == StartsWithPrefix(text, n)
  {
    if n <= |text| {
      LowerOfSplit(text, n);
      LowerIsIdempotent(text[..n]);
      LowerCommutesWithStripLeft(text[n..]);
    }
  }

  lemma {:induction false} LowerCommutesWithAfterColon(text: string)
    requires ColonFollows(text, 0)
    ensures ColonFollows(Lower(text), 0)
    ensures AfterColon(Lower(text)) == Lower(AfterColon(text))
  {
    assert text[0..] == text && Lower(text)[0..] == Lower(text);
    LowerCommutesWithStripLeft(text);
    var rest := StripLeft(text);
    LowerOfSplit(rest, 1);
    LowerCommutesWithStripLeft(rest[1..]);
  }

  lemma {:induction false} LowerCommutesWithDropPrefix(text: string)
    ensures DropPrefix(Lower(text)) == Lower(DropPrefix(text))
  {
    LowerCommutesWithStartsWithPrefix(text, 2);
    LowerCommutesWithStartsWithPrefix(text, 3);
    var n := if StartsWithPrefix(text, 2) then 2 else 3;
    if StartsWithPrefix(text, n) {
      LowerOfSplit(text, n);
      assert text[n..][0..] == text[n..];
      LowerCommutesWithAfterColon(text[n..]);
    }
  }

  lemma {:induction false} UnprefixedIsStable(text: string)
    requires Trimmed(text)
    ensures var r := Unprefixed(text); Trimmed(r) && Strip(DropPrefix(r)) == r
    decreases |text|
  {
    var stripped := Strip(DropPrefix(text));
    StripTrims(DropPrefix(text));
    StripOfTrimmed(text);
    if stripped != text {
      UnprefixedIsStable(stripped);
    }
  }

  /** Normalising a normalised subject changes nothing. */
  lemma {:induction false} NormalizeIsIdempotent(subject: string)
    ensures Normalize(Normalize(subject)) == Normalize(subject)
  {
    StripTrims(subject);
    var kernel := Unprefixed(Strip(subject));
    UnprefixedIsStable(Strip(subject));
    LowerKeepsTrimmed(kernel);
    StripOfTrimmed(Lower(kernel));
    LowerCommutesWithDropPrefix(kernel);
    LowerCommutesWithStrip(DropPrefix(kernel));
    LowerIsIdempotent(kernel);
  }

  // ---------- Prefixes do not count ----------

  predicate AllSpace(s: string) {
    forall c :: c in s ==> IsSpace(c)
  }

  /** A reply or forward prefix in any spelling: padding, a prefix word, a gap, a colon, a gap. */
  datatype Prefix = Prefix(pad: string, word: string, gap: string, tail: string) {
    predicate Valid() {
      AllSpace(pad) && IsPrefixWord(word) && AllSpace(gap) && AllSpace(tail)
    }

    function Text(): string {
      pad + (word + gap + ":" + tail)
    }
  }

  function Stacked(prefixes: seq<Prefix>, subject: string): string {
    if prefixes == [] then subject else prefixes[0].Text() + Stacked(prefixes[1..], subject)
  }

  lemma {:induction false} StripRightStopsAt(head: string, tail: string)
    requires head != "" && !IsSpace(head[|head| - 1])
    ensures StripRight(head + tail) == head + StripRight(tail)
  {
    if tail != "" && IsSpace(tail[|tail| - 1]) {
      assert (head + tail)[..|head + tail| - 1] == head + tail[..|tail| - 1];
      StripRightStopsAt(head, tail[..|tail| - 1]);
    } else if tail != "" {
      assert StripRight(tail) == tail;
    } else {
      assert head + tail == head;
    }
  }

  lemma {:induction false} StripSidesCommute(s: string)
    ensures StripLeft(StripRight(s)) == StripRight(StripLeft(s))
  {
    StripRightShape(s);
    if s != "" && IsSpace(s[|s| - 1]) {
      var init := s[..|s| - 1];
      assert s == init + s[|s| - 1..];
      StripSidesCommute(init);
      StripIgnoresPadding("", init, s[|s| - 1..]);
      assert "" + init + s[|s| - 1..] == s;
    } else {
      StripLeftShape(s);
      assert StripRight(s) == s;
      var left := StripLeft(s);
      assert left != "" ==> left[|left| - 1] == s[|s| - 1];
    }
  }

  lemma {:induction false} PrefixWordShape(word: string)
    requires IsPrefixWord(word)
    ensures 2 <= |word| <= 3
    ensures forall i :: 0 <= i < |word| ==> !IsSpace(word[i]) && word[i] != ':'
  {
    assert forall i :: 0 <= i < |word| ==> Lower(word)[i] == LowerChar(word[i]);
    assert forall i :: 0 <= i < |word| ==> Lower(word)[i] in "refwd";
    assert forall c: char :: IsSpace(c) || c == ':' ==> LowerChar(c) == c;
  }

  /** Exactly one prefix is dropped, with the white space around it. */
  lemma {:induction false} DropPrefixDropsOne(word: string, gap: string, rest: string)
    requires IsPrefixWord(word) && AllSpace(gap)
    ensures DropPrefix(word + gap + ":" + rest) == StripLeft(rest)
  {
    var text := word + gap + ":" + rest;
    PrefixWordShape(word);
    var n := |word|;
    assert text[..n] == word;
    assert text[n..] == gap + (":" + rest);
    StripLeftSkips(gap, ":" + rest);
    assert StripLeft(text[n..]) == ":" + rest;
    assert (":" + rest)[1..] == rest;
    assert StartsWithPrefix(text, n);
    if n == 3 {
      assert text[2..][0] == word[2];
      assert !ColonFollows(text, 2);
    }
  }

  lemma {:induction false} OnePrefixDoesNotCount(prefix: Prefix, subject: string)
    requires prefix.Valid()
    ensures Normalize(prefix.Text() + subject) == Normalize(subject)
  {
    var Prefix(pad, word, gap, tail) := prefix;
    var head := word + gap + ":";
    var core := head + (tail + subject);
    assert prefix.Text() + subject == pad + core + "";
    StripIgnoresPadding(pad, core, "");
    PrefixWordShape(word);
    assert core[0] == word[0];
    assert StripLeft(core) == core;
    StripRightStopsAt(head, tail + subject);
    var rest := StripRight(tail + subject);
    var text := Strip(core);
    assert text == head + rest;
    DropPrefixDropsOne(word, gap, rest);
    StripSidesCommute(tail + subject);
    assert tail + subject == tail + subject + "";
    StripIgnoresPadding(tail, subject, "");
    var stripped := Strip(subject);
    assert DropPrefix(text) == stripped;
    StripTrims(subject);
    StripOfTrimmed(stripped);
    StripTrims(core);
    assert |stripped| < |text|;
    assert Unprefixed(text) == Unprefixed(stripped);
  }

  /** No stack of prefixes, whatever their case and spacing, changes the normal form. */
  lemma {:induction false} PrefixesDoNotCount(prefixes: seq<Prefix>, subject: string)
    requires forall i :: 0 <= i < |prefixes| ==> prefixes[i].Valid()
    ensures Normalize(Stacked(prefixes, subject)) == Normalize(subject)
  {
    if prefixes != [] {
      OnePrefixDoesNotCount(prefixes[0], Stacked(prefixes[1..], subject));
      PrefixesDoNotCount(prefixes[1..], subject);
    }
  }

  // ---------- And nothing else is dropped ----------

  /** The words that may head a prefix, in every case. */
  lemma {:induction false} PrefixWords(word: string)
    ensures IsPrefixWord(word) <==>
      || SameLetters(word, "re") || SameLetters(word, "fw") || SameLetters(word, "fwd")
  {
    LowerOfSameLetters(word, "re");
    LowerOfSameLetters(word, "fw");
    LowerOfSameLetters(word, "fwd");
    assert Lower("re") == "re" && Lower("fw") == "fw" && Lower("fwd") == "fwd";
  }

  /** A subject that starts with a prefix word, white space or none, and a colon. */
  ghost predicate HasPrefix(subject: string) {
    exists word, gap :: IsPrefixWord(word) && AllSpace(gap) && word + gap + ":" <= subject
  }

  lemma {:induction false} StartsWithIsPrefix(text: string, n: nat)
    requires StartsWithPrefix(text, n)
    ensures HasPrefix(text)
  {
    var gap := LeadingSpace(text[n..]);
    assert text == text[..n] + (gap + StripLeft(text[n..]));
    assert text[..n] + gap + ":" <= text;
  }

  lemma {:induction false} LeadingSpace(s: string) returns (gap: string)
    ensures AllSpace(gap) && s == gap + StripLeft(s)
  {
    StripLeftShape(s);
    gap := s[..|s| - |StripLeft(s)|];
    forall c | c in gap ensures IsSpace(c) {
      var i :| 0 <= i < |gap| && gap[i] == c;
      assert s[i] == c;
    }
  }

  /** A subject without a prefix keeps everything but the white space around it and the case of its letters. */
  lemma {:induction false} OnlyPrefixesAreDropped(subject: string)
    requires !HasPrefix(Strip(subject))
    ensures Normalize(subject) == Lower(Strip(subject))
  {
    StripTrims(subject);
    var text := Strip(subject);
    if StartsWithPrefix(text, 2) { StartsWithIsPrefix(text, 2); }
    if StartsWithPrefix(text, 3) { StartsWithIsPrefix(text, 3); }
    StripOfTrimmed(text);
  }
}
