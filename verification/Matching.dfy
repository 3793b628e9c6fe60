/** Matching a fetched message to the outbound message it answers. */
module Matching {
  import opened Base
  import opened Tables
  import opened Text
  import Subjects

  datatype FetchedMessage = FetchedMessage(
    providerMessageId: string,
    providerThreadId: string,
    fromEmail: string,
    subject: string,
    snippet: string,
    inReplyTo: Option<string>,
    references: Option<string>,
    receivedAt: Time,
    isBounce: bool)

  predicate IsBracket(c: char) {
    c == '<' || c == '>'
  }

  function StripBracketsLeft(s: string): string {
    if s != "" && IsBracket(s[0]) then StripBracketsLeft(s[1..]) else s
  }

  function StripBracketsRight(s: string): string {
    if s != "" && IsBracket(s[|s| - 1]) then StripBracketsRight(s[..|s| - 1]) else s
  }

  function NormalizeMessageId(messageId: Option<string>): (key: Option<string>)
    ensures key.Some? ==> key.value != ""
  {
    match messageId
    case None => None
    case Some(raw) =>
      var stripped := Lower(Strip(StripBracketsRight(StripBracketsLeft(Strip(raw)))));
      if stripped == "" then None else Some(stripped)
  }

  /** The length of the leading run of characters that are not white space. */
  function WordLength(s: string): (n: nat)
    ensures n <= |s|
    ensures s != "" && !IsSpace(s[0]) ==> 0 < n
  {
    if s == "" || IsSpace(s[0]) then 0 else 1 + WordLength(s[1..])
  }

  /** The words of a text, split at white space. */
  function Words(s: string): seq<string>
    decreases |s|
  {
    StripLeftShape(s);
    var rest := StripLeft(s);
    if rest == "" then []
    else
      var n := WordLength(rest);
      [rest[..n]] + Words(rest[n..])
  }

  /** The normal forms of a list of words; a word without one is dropped. */
  function MessageIds(words: seq<string>): seq<string> {
    if words == [] then []
    else
      var last := |words| - 1;
      match NormalizeMessageId(Some(words[last]))
      case None => MessageIds(words[..last])
      case Some(key) => MessageIds(words[..last]) + [key]
  }

  function ReferenceIds(header: Option<string>): seq<string> {
    match header
    case None => []
    case Some(text) => MessageIds(Words(text))
  }

  predicate HasMessageId(candidate: Outbound, key: string) {
    NormalizeMessageId(Some(candidate.messageId)) == Some(key)
  }

  predicate InThread(candidate: Outbound, thread: string) {
    candidate.providerThreadId == Some(thread)
  }

  predicate SameCorrespondence(candidate: Outbound, fromEmail: string, subject: string) {
    && Lower(candidate.toEmail) == Lower(fromEmail)
    && Subjects.Normalize(candidate.subject) == subject
  }

  /** Building a dictionary keeps the last candidate of each key. */
  function LastWithMessageId(candidates: seq<Outbound>, key: string): Option<Outbound> {
    if candidates == [] then None
    else
      var last := candidates[|candidates| - 1];
      if HasMessageId(last, key) then Some(last) else LastWithMessageId(candidates[..|candidates| - 1], key)
  }

  function LastInThread(candidates: seq<Outbound>, thread: string): Option<Outbound> {
    if candidates == [] then None
    else
      var last := candidates[|candidates| - 1];
      if InThread(last, thread) then Some(last) else LastInThread(candidates[..|candidates| - 1], thread)
  }

  function FirstReferenced(references: seq<string>, candidates: seq<Outbound>): Option<Outbound> {
    if references == [] then None
    else if LastWithMessageId(candidates, references[0]).Some? then LastWithMessageId(candidates, references[0])
    else FirstReferenced(references[1..], candidates)
  }

  function FirstInCorrespondence(candidates: seq<Outbound>, fromEmail: string, subject: string): Option<Outbound> {
    if candidates == [] then None
    else if SameCorrespondence(candidates[0], fromEmail, subject) then Some(candidates[0])
    else FirstInCorrespondence(candidates[1..], fromEmail, subject)
  }

  function AnsweredById(inbound: FetchedMessage, candidates: seq<Outbound>): Option<Outbound> {
    match NormalizeMessageId(inbound.inReplyTo)
    case None => None
    case Some(key) => LastWithMessageId(candidates, key)
  }

  /** The candidate a fetched message answers: by identifier, by reference, by thread, by correspondence. */
  function MatchReply(inbound: FetchedMessage, candidates: seq<Outbound>): Option<Outbound> {
    var byId := AnsweredById(inbound, candidates);
    if byId.Some? then byId
    else
      var byReference := FirstReferenced(ReferenceIds(inbound.references), candidates);
      if byReference.Some? then byReference
      else
        var byThread := LastInThread(candidates, inbound.providerThreadId);
        if byThread.Some? then byThread
        else
          var subject := Subjects.Normalize(inbound.subject);
          if subject != "" then FirstInCorrespondence(candidates, inbound.fromEmail, subject) else None
  }

  // ---------- The tiers, stated over positions instead of by recursion ----------

  /** `r` is the last candidate listed with this identifier, if there is one. */
  ghost predicate IsLastWithMessageId(candidates: seq<Outbound>, key: string, r: Option<Outbound>) {
    match r
    case None => forall i :: 0 <= i < |candidates| ==> !HasMessageId(candidates[i], key)
    case Some(c) => exists i :: 0 <= i < |candidates| && candidates[i] == c && HasMessageId(c, key)
                      && forall j :: i < j < |candidates| ==> !HasMessageId(candidates[j], key)
  }

  ghost predicate IsLastInThread(candidates: seq<Outbound>, thread: string, r: Option<Outbound>) {
    match r
    case None => forall i :: 0 <= i < |candidates| ==> !InThread(candidates[i], thread)
    case Some(c) => exists i :: 0 <= i < |candidates| && candidates[i] == c && InThread(c, thread)
                      && forall j :: i < j < |candidates| ==> !InThread(candidates[j], thread)
  }

  /** `r` belongs to the first reference, in header order, that any candidate carries. */
  ghost predicate IsFirstReferenced(references: seq<string>, candidates: seq<Outbound>, r: Option<Outbound>) {
    match r
    case None => forall k :: 0 <= k < |references| ==> IsLastWithMessageId(candidates, references[k], None)
    case Some(_) => exists k :: 0 <= k < |references| && IsLastWithMessageId(candidates, references[k], r)
                      && forall j :: 0 <= j < k ==> IsLastWithMessageId(candidates, references[j], None)
  }

  ghost predicate IsFirstInCorrespondence(
    candidates: seq<Outbound>, fromEmail: string, subject: string, r: Option<Outbound>)
  {
    match r
    case None => forall i :: 0 <= i < |candidates| ==> !SameCorrespondence(candidates[i], fromEmail, subject)
    case Some(c) => exists i :: 0 <= i < |candidates| && candidates[i] == c && SameCorrespondence(c, fromEmail, subject)
                      && forall j :: 0 <= j < i ==> !SameCorrespondence(candidates[j], fromEmail, subject)
  }

  /** The four tiers: a lower one decides only when every higher one found nothing. */
  ghost predicate IsTieredMatch(inbound: FetchedMessage, candidates: seq<Outbound>, r: Option<Outbound>) {
    var key := NormalizeMessageId(inbound.inReplyTo);
    var references := ReferenceIds(inbound.references);
    var subject := Subjects.Normalize(inbound.subject);
    var unanswered := key.None? || IsLastWithMessageId(candidates, key.value, None);
    var unreferenced := unanswered && IsFirstReferenced(references, candidates, None);
    var unthreaded := unreferenced && IsLastInThread(candidates, inbound.providerThreadId, None);
    && (!unanswered ==> r.Some? && IsLastWithMessageId(candidates, key.value, r))
    && (unanswered && !unreferenced ==> r.Some? && IsFirstReferenced(references, candidates, r))
    && (unreferenced && !unthreaded ==> r.Some? && IsLastInThread(candidates, inbound.providerThreadId, r))
    && (unthreaded ==> if subject == "" then r.None?
                       else IsFirstInCorrespondence(candidates, inbound.fromEmail, subject, r))
  }

  lemma {:induction false} LastWithMessageIdIsLast(candidates: seq<Outbound>, key: string)
    ensures IsLastWithMessageId(candidates, key, LastWithMessageId(candidates, key))
  {
    if candidates != [] {
      var last, r := |candidates| - 1, LastWithMessageId(candidates, key);
      if HasMessageId(candidates[last], key) {
        assert candidates[last] == r.value;
      } else {
        LastWithMessageIdIsLast(candidates[..last], key);
        OneMoreCandidate(candidates, key, r);
      }
    }
  }

  /** A last candidate without the identifier does not change which one is the last with it. */
  lemma {:induction false} OneMoreCandidate(candidates: seq<Outbound>, key: string, r: Option<Outbound>)
    requires candidates != [] && !HasMessageId(candidates[|candidates| - 1], key)
    requires IsLastWithMessageId(candidates[..|candidates| - 1], key, r)
    ensures IsLastWithMessageId(candidates, key, r)
  {
    var last := |candidates| - 1;
    var init := candidates[..last];
    if r.Some? {
      var i :| 0 <= i < last && init[i] == r.value && HasMessageId(r.value, key)
        && forall j :: i < j < last ==> !HasMessageId(init[j], key);
      assert candidates[i] == r.value;
      forall j | i < j < |candidates| ensures !HasMessageId(candidates[j], key) {
        assert j < last ==> candidates[j] == init[j];
      }
    } else {
      forall j | 0 <= j < |candidates| ensures !HasMessageId(candidates[j], key) {
        assert j < last ==> candidates[j] == init[j];
      }
    }
  }

  lemma {:induction false} LastInThreadIsLast(candidates: seq<Outbound>, thread: string)
    ensures IsLastInThread(candidates, thread, LastInThread(candidates, thread))
  {
    if candidates != [] && !InThread(candidates[|candidates| - 1], thread) {
      LastInThreadIsLast(candidates[..|candidates| - 1], thread);
    }
  }

  lemma {:induction false} FirstReferencedIsFirst(references: seq<string>, candidates: seq<Outbound>)
    ensures IsFirstReferenced(references, candidates, FirstReferenced(references, candidates))
  {
    if references != [] {
      LastWithMessageIdIsLast(candidates, references[0]);
      if LastWithMessageId(candidates, references[0]).None? {
        FirstReferencedIsFirst(references[1..], candidates);
        var r := FirstReferenced(references, candidates);
        if r.Some? {
          var k :| 0 <= k < |references[1..]| && IsLastWithMessageId(candidates, references[1..][k], r)
            && forall j :: 0 <= j < k ==> IsLastWithMessageId(candidates, references[1..][j], None);
          assert references[k + 1] == references[1..][k];
          forall j | 0 <= j < k + 1 ensures IsLastWithMessageId(candidates, references[j], None) {
            if 0 < j { assert references[j] == references[1..][j - 1]; }
          }
        } else {
          forall k | 0 <= k < |references| ensures IsLastWithMessageId(candidates, references[k], None) {
            if 0 < k { assert references[k] == references[1..][k - 1]; }
          }
        }
      }
    }
  }

  lemma {:induction false} FirstInCorrespondenceIsFirst(candidates: seq<Outbound>, fromEmail: string, subject: string)
    ensures
      IsFirstInCorrespondence(candidates, fromEmail, subject, FirstInCorrespondence(candidates, fromEmail, subject))
  {
    if candidates != [] && !SameCorrespondence(candidates[0], fromEmail, subject) {
      FirstInCorrespondenceIsFirst(candidates[1..], fromEmail, subject);
      var r := FirstInCorrespondence(candidates, fromEmail, subject);
      if r.Some? {
        var i :| 0 <= i < |candidates[1..]| && candidates[1..][i] == r.value
          && SameCorrespondence(r.value, fromEmail, subject)
          && forall j :: 0 <= j < i ==> !SameCorrespondence(candidates[1..][j], fromEmail, subject);
        assert candidates[i + 1] == r.value;
        forall j | 0 <= j < i + 1 ensures !SameCorrespondence(candidates[j], fromEmail, subject) {
          if 0 < j { assert candidates[j] == candidates[1..][j - 1]; }
        }
      } else {
        forall j | 0 <= j < |candidates| ensures !SameCorrespondence(candidates[j], fromEmail, subject) {
          if 0 < j { assert candidates[j] == candidates[1..][j - 1]; }
        }
      }
    }
  }

  lemma {:induction false} LastIsUnique(
    candidates: seq<Outbound>, key: string, r: Option<Outbound>, s: Option<Outbound>)
    requires IsLastWithMessageId(candidates, key, r) && IsLastWithMessageId(candidates, key, s)
    ensures r == s
  {
  }

  lemma {:induction false} FirstReferencedIsUnique(
    references: seq<string>, candidates: seq<Outbound>, r: Option<Outbound>, s: Option<Outbound>)
    requires IsFirstReferenced(references, candidates, r) && IsFirstReferenced(references, candidates, s)
    requires r.Some? && s.Some?
    ensures r == s
  {
    var k :| 0 <= k < |references| && IsLastWithMessageId(candidates, references[k], r)
      && forall j :: 0 <= j < k ==> IsLastWithMessageId(candidates, references[j], None);
    var m :| 0 <= m < |references| && IsLastWithMessageId(candidates, references[m], s)
      && forall j :: 0 <= j < m ==> IsLastWithMessageId(candidates, references[j], None);
    if k < m {
      LastIsUnique(candidates, references[k], r, None);
    } else if m < k {
      LastIsUnique(candidates, references[m], s, None);
    } else {
      LastIsUnique(candidates, references[k], r, s);
    }
  }

  lemma {:induction false} LastInThreadIsUnique(
    candidates: seq<Outbound>, thread: string, r: Option<Outbound>, s: Option<Outbound>)
    requires IsLastInThread(candidates, thread, r) && IsLastInThread(candidates, thread, s)
    ensures r == s
  {
  }

  lemma {:induction false} FirstInCorrespondenceIsUnique(
    candidates: seq<Outbound>, fromEmail: string, subject: string, r: Option<Outbound>, s: Option<Outbound>)
    requires IsFirstInCorrespondence(candidates, fromEmail, subject, r)
    requires IsFirstInCorrespondence(candidates, fromEmail, subject, s)
    ensures r == s
  {
  }

  /** Two answers that meet the tiers are the same answer. */
  lemma {:induction false} TieredMatchIsUnique(
    inbound: FetchedMessage, candidates: seq<Outbound>, r: Option<Outbound>, s: Option<Outbound>)
    requires IsTieredMatch(inbound, candidates, r) && IsTieredMatch(inbound, candidates, s)
    ensures r == s
  {
    var key := NormalizeMessageId(inbound.inReplyTo);
    var references := ReferenceIds(inbound.references);
    if key.Some? && !IsLastWithMessageId(candidates, key.value, None) {
      LastIsUnique(candidates, key.value, r, s);
    } else if !IsFirstReferenced(references, candidates, None) {
      FirstReferencedIsUnique(references, candidates, r, s);
    } else if !IsLastInThread(candidates, inbound.providerThreadId, None) {
      LastInThreadIsUnique(candidates, inbound.providerThreadId, r, s);
    } else if Subjects.Normalize(inbound.subject) != "" {
      FirstInCorrespondenceIsUnique(candidates, inbound.fromEmail, Subjects.Normalize(inbound.subject), r, s);
    }
  }

  lemma {:induction false} MatchReplyIsTiered(inbound: FetchedMessage, candidates: seq<Outbound>)
    ensures IsTieredMatch(inbound, candidates, MatchReply(inbound, candidates))
    ensures MatchReply(inbound, candidates).Some? ==> MatchReply(inbound, candidates).value in candidates
  {
    var key := NormalizeMessageId(inbound.inReplyTo);
    if key.Some? {
      LastWithMessageIdIsLast(candidates, key.value);
    }
    FirstReferencedIsFirst(ReferenceIds(inbound.references), candidates);
    LastInThreadIsLast(candidates, inbound.providerThreadId);
    FirstInCorrespondenceIsFirst(candidates, inbound.fromEmail, Subjects.Normalize(inbound.subject));
  }

  // ---------- The loops and dictionaries of the source ----------

  method ReferenceIdList(header: Option<string>) returns (ids: seq<string>)
    ensures ids == ReferenceIds(header)
  {
    ids := [];
    if header.None? || header.value == "" {
      return;
    }
    var words := Words(header.value);
    for n := 0 to |words|
      invariant ids == MessageIds(words[..n])
    {
      assert words[..n + 1][..n] == words[..n];
      var normalized := NormalizeMessageId(Some(words[n]));
      if normalized.Some? {
        ids := ids + [normalized.value];
      }
    }
    assert words[..|words|] == words;
  }

  method IndexByMessageId(candidates: seq<Outbound>) returns (byId: map<string, Outbound>)
    ensures forall key :: key in byId <==> LastWithMessageId(candidates, key).Some?
    ensures forall key :: key in byId ==> LastWithMessageId(candidates, key) == Some(byId[key])
  {
    byId := map[];
    for n := 0 to |candidates|
      invariant forall key :: key in byId <==> LastWithMessageId(candidates[..n], key).Some?
      invariant forall key :: key in byId ==> LastWithMessageId(candidates[..n], key) == Some(byId[key])
    {
      assert candidates[..n + 1][..n] == candidates[..n];
      var normalized := NormalizeMessageId(Some(candidates[n].messageId));
      if normalized.Some? {
        byId := byId[normalized.value := candidates[n]];
      }
    }
    assert candidates[..|candidates|] == candidates;
  }

  method IndexByThread(candidates: seq<Outbound>) returns (byThread: map<string, Outbound>)
    ensures forall thread :: thread in byThread <==> LastInThread(candidates, thread).Some?
    ensures forall thread :: thread in byThread ==> LastInThread(candidates, thread) == Some(byThread[thread])
  {
    byThread := map[];
    for n := 0 to |candidates|
      invariant forall thread :: thread in byThread <==> LastInThread(candidates[..n], thread).Some?
      invariant forall thread :: thread in byThread ==> LastInThread(candidates[..n], thread) == Some(byThread[thread])
    {
      assert candidates[..n + 1][..n] == candidates[..n];
      if candidates[n].providerThreadId.Some? {
        byThread := byThread[candidates[n].providerThreadId.value := candidates[n]];
      }
    }
    assert candidates[..|candidates|] == candidates;
  }

  method FindMatch(inbound: FetchedMessage, candidates: seq<Outbound>) returns (matched: Option<Outbound>)
    ensures matched == MatchReply(inbound, candidates)
  {
    var byId := IndexByMessageId(candidates);
    var inReplyTo := NormalizeMessageId(inbound.inReplyTo);
    if inReplyTo.Some? && inReplyTo.value in byId {
      return Some(byId[inReplyTo.value]);
    }
    var references := ReferenceIdList(inbound.references);
    for n := 0 to |references|
      invariant FirstReferenced(references, candidates) == FirstReferenced(references[n..], candidates)
    {
      if references[n] in byId {
        return Some(byId[references[n]]);
      }
      assert references[n..][1..] == references[n + 1..];
    }
    var byThread := IndexByThread(candidates);
    if inbound.providerThreadId in byThread {
      return Some(byThread[inbound.providerThreadId]);
    }
    var subject := Subjects.NormalizeSubject(inbound.subject);
    if subject != "" {
      for n := 0 to |candidates|
        invariant FirstInCorrespondence(candidates, inbound.fromEmail, subject) ==
          FirstInCorrespondence(candidates[n..], inbound.fromEmail, subject)
      {
        var candidateSubject := Subjects.NormalizeSubject(candidates[n].subject);
        if Lower(candidates[n].toEmail) == Lower(inbound.fromEmail) && candidateSubject == subject {
          return Some(candidates[n]);
        }
        assert candidates[n..][1..] == candidates[n + 1..];
      }
    }
    return None;
  }
}
