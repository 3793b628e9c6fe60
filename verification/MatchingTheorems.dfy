/** What a reply has to carry to find the message it answers. */
module MatchingTheorems {
  import opened Base
  import opened Matching
  import opened Tables
  import opened Text
  import Subjects

  // ---------- Message identifiers ----------

  predicate AllBrackets(s: string) {
    forall c :: c in s ==> c == '<' || c == '>'
  }

  /** An identifier without white space, brackets or capitals: its own normal form. */
  predicate IsPlain(id: string) {
    id != "" && forall i :: 0 <= i < |id| ==> !IsSpace(id[i]) && id[i] != '<' && id[i] != '>' && !('A' <= id[i] <= 'Z')
  }

  lemma {:induction false} BracketsLeftSkip(pad: string, s: string)
    requires AllBrackets(pad) && (s != "" ==> !IsBracket(s[0]))
    ensures StripBracketsLeft(pad + s) == s
  {
    if pad == "" {
      assert pad + s == s;
    } else {
      assert (pad + s)[0] in pad && (pad + s)[1..] == pad[1..] + s;
      assert forall c :: c in pad[1..] ==> c in pad;
      BracketsLeftSkip(pad[1..], s);
    }
  }

  lemma {:induction false} BracketsRightSkip(s: string, pad: string)
    requires AllBrackets(pad) && (s != "" ==> !IsBracket(s[|s| - 1]))
    ensures StripBracketsRight(s + pad) == s
  {
    if pad == "" {
      assert s + pad == s;
    } else {
      var last := |pad| - 1;
      assert pad[last] in pad;
      assert (s + pad)[..|s + pad| - 1] == s + pad[..last];
      assert AllBrackets(pad[..last]) by {
        forall c | c in pad[..last] ensures c == '<' || c == '>' { assert c in pad; }
      }
      BracketsRightSkip(s, pad[..last]);
    }
  }

  lemma {:induction false} StripInside(left: string, core: string, right: string)
    requires (forall c :: c in left || c in right ==> IsSpace(c)) && Trimmed(core)
    ensures Strip(left + core + right) == core
  {
    StripIgnoresPadding(left, core, right);
    StripOfTrimmed(core);
  }

  /** A way to write an identifier: padded, in brackets, padded inside them, in any case. */
  datatype Spelling = Spelling(left: string, open: string, gap: string, word: string, tail: string, close: string,
                               right: string)
  {
    predicate Valid(id: string) {
      && (forall c :: c in left || c in gap || c in tail || c in right ==> IsSpace(c))
      && AllBrackets(open) && AllBrackets(close) && SameLetters(word, id)
      && (open == "" ==> gap == "") && (close == "" ==> tail == "")
    }

    function Inner(): string {
      open + (gap + word + tail) + close
    }

    function Text(): string {
      left + Inner() + right
    }
  }

  lemma {:induction false} LettersStayPlain(word: string, id: string)
    requires IsPlain(id) && SameLetters(word, id)
    ensures word != "" && forall i :: 0 <= i < |word| ==> !IsSpace(word[i]) && !IsBracket(word[i])
  {
    assert forall i :: 0 <= i < |id| ==> SameLetter(word[i], id[i]);
  }

  lemma {:induction false} MidEnds(p: Spelling, id: string)
    requires IsPlain(id) && p.Valid(id)
    ensures var mid := p.gap + p.word + p.tail;
      && mid != "" && !IsBracket(mid[0]) && !IsBracket(mid[|mid| - 1])
      && (p.open == "" ==> !IsSpace(mid[0])) && (p.close == "" ==> !IsSpace(mid[|mid| - 1]))
  {
    LettersStayPlain(p.word, id);
    var mid := p.gap + p.word + p.tail;
    assert mid[0] == if p.gap != "" then p.gap[0] else p.word[0];
    assert mid[|mid| - 1] == if p.tail != "" then p.tail[|p.tail| - 1] else p.word[|p.word| - 1];
    EndsIn(p.gap);
    EndsIn(p.tail);
  }

  lemma {:induction false} InnerIsTrimmed(p: Spelling, id: string)
    requires IsPlain(id) && p.Valid(id)
    ensures Trimmed(p.Inner())
  {
    MidEnds(p, id);
    var mid := p.gap + p.word + p.tail;
    assert p.Inner()[0] == if p.open != "" then p.open[0] else mid[0];
    assert p.Inner()[|p.Inner()| - 1] == if p.close != "" then p.close[|p.close| - 1] else mid[|mid| - 1];
    EndsIn(p.open);
    EndsIn(p.close);
  }

  lemma {:induction false} InnerShape(p: Spelling, id: string)
    requires IsPlain(id) && p.Valid(id)
    ensures Trimmed(p.Inner()) && StripBracketsRight(StripBracketsLeft(p.Inner())) == p.gap + p.word + p.tail
    ensures Strip(p.gap + p.word + p.tail) == p.word
  {
    LettersStayPlain(p.word, id);
    MidEnds(p, id);
    InnerIsTrimmed(p, id);
    var mid := p.gap + p.word + p.tail;
    assert p.Inner() == p.open + (mid + p.close);
    BracketsLeftSkip(p.open, mid + p.close);
    BracketsRightSkip(mid, p.close);
    StripInside(p.gap, p.word, p.tail);
  }

  lemma {:induction false} EndsIn(s: string)
    ensures s != "" ==> s[0] in s && s[|s| - 1] in s
  {
  }

  /** However it is spelled, a plain identifier is what a header names. */
  lemma {:induction false} SpellingsOfAnId(p: Spelling, id: string)
    requires IsPlain(id) && p.Valid(id)
    ensures NormalizeMessageId(Some(p.Text())) == Some(id)
  {
    InnerShape(p, id);
    StripInside(p.left, p.Inner(), p.right);
    LowerOfSameLetters(p.word, id);
    assert Lower(id) == id;
  }

  lemma {:induction false} BracketsLeftShape(s: string) returns (open: string)
    ensures AllBrackets(open) && s == open + StripBracketsLeft(s)
    ensures StripBracketsLeft(s) != "" ==> !IsBracket(StripBracketsLeft(s)[0])
  {
    if s != "" && IsBracket(s[0]) {
      var rest := BracketsLeftShape(s[1..]);
      open := [s[0]] + rest;
    } else {
      open := "";
    }
  }

  lemma {:induction false} BracketsRightShape(s: string) returns (close: string)
    ensures AllBrackets(close) && s == StripBracketsRight(s) + close
    ensures StripBracketsRight(s) != "" ==> !IsBracket(StripBracketsRight(s)[|StripBracketsRight(s)| - 1])
  {
    if s != "" && IsBracket(s[|s| - 1]) {
      var rest := BracketsRightShape(s[..|s| - 1]);
      close := rest + [s[|s| - 1]];
    } else {
      close := "";
    }
  }

  /** What stripping takes off both ends is white space. */
  lemma {:induction false} StripShape(s: string) returns (left: string, right: string)
    ensures (forall c :: c in left || c in right ==> IsSpace(c)) && s == left + Strip(s) + right
    ensures s != "" && !IsSpace(s[0]) ==> left == ""
    ensures s != "" && !IsSpace(s[|s| - 1]) ==> right == ""
  {
    StripLeftShape(s);
    var rest := StripLeft(s);
    StripRightShape(rest);
    left, right := s[..|s| - |rest|], rest[|Strip(s)|..];
    forall c | c in left || c in right ensures IsSpace(c) {
      if c in left {
        var i :| 0 <= i < |left| && left[i] == c;
        assert s[i] == c;
      } else {
        var i :| 0 <= i < |right| && right[i] == c;
        assert rest[|Strip(s)| + i] == c;
      }
    }
  }

  /** And nothing else names it: a header whose normal form is a plain identifier spells that identifier. */
  lemma {:induction false} OnlySpellingsNameAnId(header: string, id: string) returns (p: Spelling)
    requires IsPlain(id) && NormalizeMessageId(Some(header)) == Some(id)
    ensures p.Valid(id) && p.Text() == header
  {
    var inner := Strip(header);
    var left, right := StripShape(header);
    StripTrims(header);
    var open := BracketsLeftShape(inner);
    var mid := StripBracketsRight(StripBracketsLeft(inner));
    var close := BracketsRightShape(StripBracketsLeft(inner));
    var gap, tail := StripShape(mid);
    var word := Strip(mid);
    LowerOfSameLetters(word, id);
    assert Lower(id) == id;
    assert inner == open + mid + close;
    NoGapWithoutBrackets(open, mid, close);
    p := Spelling(left, open, gap, word, tail, close, right);
  }

  lemma {:induction false} NoGapWithoutBrackets(open: string, mid: string, close: string)
    requires Trimmed(open + mid + close) && mid != ""
    ensures open == "" ==> !IsSpace(mid[0])
    ensures close == "" ==> !IsSpace(mid[|mid| - 1])
  {
    var inner := open + mid + close;
    assert open == "" ==> inner[0] == mid[0];
    assert close == "" ==> inner[|inner| - 1] == mid[|mid| - 1];
  }

  lemma {:induction false} OnlyBrackets(s: string)
    requires AllBrackets(s)
    ensures StripBracketsLeft(s) == "" && StripBracketsRight(s) == ""
  {
    assert s + "" == s && "" + s == s;
    BracketsLeftSkip(s, "");
    BracketsRightSkip("", s);
  }

  lemma {:induction false} OnlySpace(s: string)
    requires forall c :: c in s ==> IsSpace(c)
    ensures Strip(s) == ""
  {
    assert s + "" + "" == s;
    StripInside(s, "", "");
  }

  lemma {:induction false} BracketedIsTrimmed(open: string, gap: string, close: string)
    requires AllBrackets(open) && AllBrackets(close) && open != "" && close != ""
    ensures Trimmed(open + gap + close)
  {
    var inner := open + gap + close;
    EndsIn(open);
    EndsIn(close);
    assert inner[0] == open[0] && inner[|inner| - 1] == close[|close| - 1];
  }

  /** A header of brackets and white space alone names nothing. */
  lemma {:induction false} EmptyBracketsNameNothing(
    left: string, open: string, gap: string, close: string, right: string)
    requires forall c :: c in left || c in gap || c in right ==> IsSpace(c)
    requires AllBrackets(open) && AllBrackets(close) && open != "" && close != ""
    ensures NormalizeMessageId(Some(left + (open + gap + close) + right)) == None
  {
    var inner := open + gap + close;
    EndsIn(gap);
    BracketedIsTrimmed(open, gap, close);
    StripInside(left, inner, right);
    if gap == "" {
      assert inner == open + close;
      forall c | c in inner ensures c == '<' || c == '>' {
        assert c in open || c in close;
      }
      OnlyBrackets(inner);
      OnlyBrackets("");
    } else {
      assert inner == open + (gap + close);
      assert (gap + close)[0] == gap[0];
      BracketsLeftSkip(open, gap + close);
      BracketsRightSkip(gap, close);
    }
    OnlySpace(gap);
    OnlySpace("");
  }

  // ---------- References ----------

  lemma {:induction false} MessageIdsAppend(a: seq<string>, b: seq<string>)
    ensures MessageIds(a + b) == MessageIds(a) + MessageIds(b)
  {
    if b == [] {
      assert a + b == a;
    } else {
      var last := |b| - 1;
      assert (a + b)[..|a + b| - 1] == a + b[..last];
      MessageIdsAppend(a, b[..last]);
    }
  }

  lemma {:induction false} WordLengthStops(s: string, space: char, tail: string)
    requires IsSpace(space)
    ensures WordLength(s + [space] + tail) == WordLength(s)
  {
    var whole := s + [space] + tail;
    if s == "" {
      assert whole[0] == space;
    } else {
      assert whole[0] == s[0] && whole[1..] == s[1..] + [space] + tail;
      WordLengthStops(s[1..], space, tail);
    }
  }

  lemma {:induction false} WordsSkipSpace(pad: string, s: string)
    requires forall c :: c in pad ==> IsSpace(c)
    ensures Words(pad + s) == Words(s)
  {
    StripLeftSkips(pad, s);
  }

  lemma {:induction false} WordsOfSpace(x: string, space: char, y: string)
    requires StripLeft(x) == "" && IsSpace(space)
    ensures Words(x + [space] + y) == Words(y) && Words(x) == []
  {
    StripLeftShape(x);
    var pad := x + [space];
    forall c | c in pad ensures IsSpace(c) {
      var i :| 0 <= i < |pad| && pad[i] == c;
    }
    WordsSkipSpace(pad, y);
  }

  lemma {:induction false} FirstWordEnds(rest: string, space: char, y: string)
    requires IsSpace(space)
    ensures var (whole, n) := (rest + [space] + y, WordLength(rest));
      WordLength(whole) == n && whole[..n] == rest[..n] && whole[n..] == rest[n..] + [space] + y
  {
    WordLengthStops(rest, space, y);
  }

  /** White space ends a word: what stands before it and what stands after it are split apart. */
  lemma {:induction false} WordsAppend(x: string, space: char, y: string)
    requires IsSpace(space)
    ensures Words(x + [space] + y) == Words(x) + Words(y)
    decreases |x|
  {
    var whole := x + [space] + y;
    StripLeftShape(x);
    var rest := StripLeft(x);
    if rest == "" {
      WordsOfSpace(x, space, y);
    } else {
      StripLeftKeepsTail(x, [space] + y);
      assert whole == x + ([space] + y) && rest + ([space] + y) == rest + [space] + y;
      var n := WordLength(rest);
      FirstWordEnds(rest, space, y);
      OneWordMore(whole, rest + [space] + y, n);
      OneWordMore(x, rest, n);
      WordsAppend(rest[n..], space, y);
    }
  }

  lemma {:induction false} OneWordMore(s: string, rest: string, n: nat)
    requires StripLeft(s) == rest && rest != "" && n == WordLength(rest)
    ensures Words(s) == [rest[..n]] + Words(rest[n..])
  {
  }

  /** The references of a header are those of its parts, in the order they stand in it. */
  lemma {:induction false} ReferencesInHeaderOrder(x: string, space: char, y: string)
    requires IsSpace(space)
    ensures ReferenceIds(Some(x + [space] + y)) == ReferenceIds(Some(x)) + ReferenceIds(Some(y))
  {
    WordsAppend(x, space, y);
    MessageIdsAppend(Words(x), Words(y));
  }

  lemma {:induction false} WordLengthOfWord(s: string)
    requires forall i :: 0 <= i < |s| ==> !IsSpace(s[i])
    ensures WordLength(s) == |s|
  {
    if s != "" { WordLengthOfWord(s[1..]); }
  }

  lemma {:induction false} WordsOfWord(s: string)
    requires s != "" && forall i :: 0 <= i < |s| ==> !IsSpace(s[i])
    ensures Words(s) == [s]
  {
    WordLengthOfWord(s);
    OneWordMore(s, s, |s|);
    assert s[..|s|] == s && s[|s|..] == "";
    assert Words("") == [];
  }

  lemma {:induction false} NoSpaceInside(open: string, word: string, close: string)
    requires AllBrackets(open) && AllBrackets(close) && forall i :: 0 <= i < |word| ==> !IsSpace(word[i])
    ensures forall i :: 0 <= i < |open + word + close| ==> !IsSpace((open + word + close)[i])
  {
    var text := open + word + close;
    forall i | 0 <= i < |text| ensures !IsSpace(text[i]) {
      if i < |open| {
        assert text[i] in open;
      } else if i < |open| + |word| {
        assert text[i] == word[i - |open|];
      } else {
        assert text[i] in close;
      }
    }
  }

  /** A header that is one identifier, however bracketed and in whatever case, refers to it alone. */
  lemma {:induction false} OneReference(p: Spelling, id: string)
    requires IsPlain(id) && p.Valid(id) && p.left == p.gap == p.tail == p.right == ""
    ensures ReferenceIds(Some(p.Text())) == [id]
  {
    var text := p.Text();
    assert text == p.open + p.word + p.close;
    LettersStayPlain(p.word, id);
    NoSpaceInside(p.open, p.word, p.close);
    WordsOfWord(text);
    SpellingsOfAnId(p, id);
    assert [text][..0] == [] && MessageIds([]) == [];
  }

  lemma {:induction false} FirstReferencedOfParts(a: seq<string>, b: seq<string>, candidates: seq<Outbound>)
    ensures FirstReferenced(a + b, candidates) ==
      if FirstReferenced(a, candidates).Some? then FirstReferenced(a, candidates) else FirstReferenced(b, candidates)
  {
    if a == [] {
      assert a + b == b;
    } else {
      assert (a + b)[0] == a[0] && (a + b)[1..] == a[1..] + b;
      FirstReferencedOfParts(a[1..], b, candidates);
    }
  }

  // ---------- The four ways to match ----------

  /** Neither In-Reply-To nor References name a candidate. */
  predicate NamesNone(inbound: FetchedMessage, candidates: seq<Outbound>) {
    && AnsweredById(inbound, candidates).None?
    && FirstReferenced(ReferenceIds(inbound.references), candidates).None?
  }

  /** By In-Reply-To: the last candidate sent under the identifier it spells. */
  lemma {:induction false} AnswersInReplyTo(
    inbound: FetchedMessage, candidates: seq<Outbound>, id: string, header: Spelling, sent: Spelling, k: nat)
    requires IsPlain(id) && header.Valid(id) && sent.Valid(id)
    requires inbound.inReplyTo == Some(header.Text()) && k < |candidates| && candidates[k].messageId == sent.Text()
    requires forall j, p: Spelling :: k < j < |candidates| && p.Valid(id) ==> candidates[j].messageId != p.Text()
    ensures MatchReply(inbound, candidates) == Some(candidates[k])
  {
    SpellingsOfAnId(header, id);
    LastSentUnder(candidates, id, sent, k);
  }

  lemma {:induction false} LastSentUnder(candidates: seq<Outbound>, id: string, sent: Spelling, k: nat)
    requires IsPlain(id) && sent.Valid(id) && k < |candidates| && candidates[k].messageId == sent.Text()
    requires forall j, p: Spelling :: k < j < |candidates| && p.Valid(id) ==> candidates[j].messageId != p.Text()
    ensures LastWithMessageId(candidates, id) == Some(candidates[k])
  {
    SpellingsOfAnId(sent, id);
    forall j | k < j < |candidates| ensures !HasMessageId(candidates[j], id) {
      if HasMessageId(candidates[j], id) {
        var p := OnlySpellingsNameAnId(candidates[j].messageId, id);
      }
    }
    LastWithMessageIdIsLast(candidates, id);
    LastIsUnique(candidates, id, Some(candidates[k]), LastWithMessageId(candidates, id));
  }

  /** By References: the part of the header that stands first decides, if it names a candidate at all. */
  lemma {:induction false} EarlierReferencesDecide(
    inbound: FetchedMessage, candidates: seq<Outbound>, x: string, space: char, y: string)
    requires IsSpace(space) && inbound.references == Some(x + [space] + y) && AnsweredById(inbound, candidates).None?
    ensures var first := FirstReferenced(ReferenceIds(Some(x)), candidates);
      var later := FirstReferenced(ReferenceIds(Some(y)), candidates);
      && (first.Some? ==> MatchReply(inbound, candidates) == first)
      && (first.None? && later.Some? ==> MatchReply(inbound, candidates) == later)
  {
    ReferencesInHeaderOrder(x, space, y);
    FirstReferencedOfParts(ReferenceIds(Some(x)), ReferenceIds(Some(y)), candidates);
  }

  /** Of two references that both name candidates the first is answered. */
  lemma {:induction false} FirstOfTwoReferences(
    inbound: FetchedMessage, candidates: seq<Outbound>, id: string, first: Spelling, rest: string, sent: Spelling,
    k: nat)
    requires IsPlain(id) && first.Valid(id) && first.left == first.gap == first.tail == first.right == ""
    requires inbound.references == Some(first.Text() + " " + rest) && AnsweredById(inbound, candidates).None?
    requires sent.Valid(id) && k < |candidates| && candidates[k].messageId == sent.Text()
    requires forall j, p: Spelling :: k < j < |candidates| && p.Valid(id) ==> candidates[j].messageId != p.Text()
    ensures MatchReply(inbound, candidates) == Some(candidates[k])
  {
    EarlierReferencesDecide(inbound, candidates, first.Text(), ' ', rest);
    OneReference(first, id);
    LastSentUnder(candidates, id, sent, k);
  }

  /** By thread: the last candidate sent in the thread, when no header names one. */
  lemma {:induction false} AnswersInThread(inbound: FetchedMessage, candidates: seq<Outbound>, k: nat)
    requires NamesNone(inbound, candidates) && k < |candidates|
    requires candidates[k].providerThreadId == Some(inbound.providerThreadId)
    requires forall j :: k < j < |candidates| ==> candidates[j].providerThreadId != Some(inbound.providerThreadId)
    ensures MatchReply(inbound, candidates) == Some(candidates[k])
  {
    LastInThreadIsLast(candidates, inbound.providerThreadId);
    LastInThreadIsUnique(candidates, inbound.providerThreadId, Some(candidates[k]),
                         LastInThread(candidates, inbound.providerThreadId));
  }

  /** The reply comes from the candidate's recipient, and both subjects come down to the same one, not empty. */
  predicate Corresponds(candidate: Outbound, inbound: FetchedMessage) {
    && SameLetters(candidate.toEmail, inbound.fromEmail)
    && Subjects.Normalize(candidate.subject) == Subjects.Normalize(inbound.subject) != ""
  }

  /** By correspondence: the first candidate that corresponds, when there is none in the thread either. */
  lemma {:induction false} AnswersCorrespondence(inbound: FetchedMessage, candidates: seq<Outbound>, k: nat)
    requires NamesNone(inbound, candidates) && k < |candidates| && Corresponds(candidates[k], inbound)
    requires forall j :: 0 <= j < |candidates| ==> candidates[j].providerThreadId != Some(inbound.providerThreadId)
    requires forall j :: 0 <= j < k ==> !Corresponds(candidates[j], inbound)
    ensures MatchReply(inbound, candidates) == Some(candidates[k])
  {
    var subject := Subjects.Normalize(inbound.subject);
    forall j | 0 <= j < |candidates|
      ensures SameCorrespondence(candidates[j], inbound.fromEmail, subject) <==> Corresponds(candidates[j], inbound)
    {
      LowerOfSameLetters(candidates[j].toEmail, inbound.fromEmail);
    }
    LastInThreadIsLast(candidates, inbound.providerThreadId);
    FirstInCorrespondenceIsFirst(candidates, inbound.fromEmail, subject);
    FirstInCorrespondenceIsUnique(candidates, inbound.fromEmail, subject, Some(candidates[k]),
                                  FirstInCorrespondence(candidates, inbound.fromEmail, subject));
  }

  /** A reply that answers nothing names no candidate, is in no candidate's thread, and corresponds to none. */
  lemma {:induction false} UnansweredExactly(inbound: FetchedMessage, candidates: seq<Outbound>)
    ensures MatchReply(inbound, candidates).None? <==>
      && NamesNone(inbound, candidates)
      && forall j :: 0 <= j < |candidates| ==>
           candidates[j].providerThreadId != Some(inbound.providerThreadId) && !Corresponds(candidates[j], inbound)
  {
    var subject := Subjects.Normalize(inbound.subject);
    forall j | 0 <= j < |candidates|
      ensures SameCorrespondence(candidates[j], inbound.fromEmail, subject) && subject != "" <==>
        Corresponds(candidates[j], inbound)
    {
      LowerOfSameLetters(candidates[j].toEmail, inbound.fromEmail);
    }
    LastInThreadIsLast(candidates, inbound.providerThreadId);
    FirstInCorrespondenceIsFirst(candidates, inbound.fromEmail, subject);
  }
}
