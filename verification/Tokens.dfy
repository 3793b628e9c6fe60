/** Counting the claims of one job. */
module Tokens {
  import opened CampaignDomain
  import opened Invariant
  import opened Machine
  import opened Sending

  lemma {:induction false} CountedOfUpdate(tokens: seq<Token>, i: nat, token: Token)
    requires i < |tokens|
    ensures Counted(tokens[i := token]) ==
      Counted(tokens) - (if Counts(tokens[i]) then 1 else 0) + (if Counts(token) then 1 else 0)
  {
    var last := |tokens| - 1;
    if i < last {
      assert tokens[i := token][..last] == tokens[..last][i := token];
      CountedOfUpdate(tokens[..last], i, token);
    } else {
      assert tokens[i := token][..last] == tokens[..last];
    }
  }

  lemma {:induction false} FinalsOfUpdate(tokens: seq<Token>, i: nat, token: Token)
    requires i < |tokens|
    ensures Finals(tokens[i := token]) ==
      Finals(tokens) - (if IsFinal(tokens[i]) then 1 else 0) + (if IsFinal(token) then 1 else 0)
  {
    var last := |tokens| - 1;
    if i < last {
      assert tokens[i := token][..last] == tokens[..last][i := token];
      FinalsOfUpdate(tokens[..last], i, token);
    } else {
      assert tokens[i := token][..last] == tokens[..last];
    }
  }

  lemma {:induction false} CountedOfPrefix(tokens: seq<Token>, n: nat)
    requires n <= |tokens|
    ensures Counted(tokens[..n]) <= Counted(tokens)
  {
    if n < |tokens| {
      assert tokens[..|tokens| - 1][..n] == tokens[..n];
      CountedOfPrefix(tokens[..|tokens| - 1], n);
    } else {
      assert tokens[..n] == tokens;
    }
  }

  lemma {:induction false} CountedOfAppend(tokens: seq<Token>, token: Token)
    ensures Counted(tokens + [token]) == Counted(tokens) + if Counts(token) then 1 else 0
    ensures Finals(tokens + [token]) == Finals(tokens) + if IsFinal(token) then 1 else 0
  {
    assert (tokens + [token])[..|tokens|] == tokens;
  }

  /** Settling one claim keeps the ranking; a retry needs a rank below the maximum. */
  lemma {:induction false} RankedAfterFate(tokens: seq<Token>, i: nat, fate: Fate)
    requires Ranked(tokens) && i < |tokens| && tokens[i].fate.Outstanding? && !fate.Outstanding?
    requires fate == Settled(Retrying) ==> Rank(tokens, i) < MAX_SEND_ATTEMPTS
    ensures Ranked(tokens[i := tokens[i].(fate := fate)])
  {
    var token := tokens[i].(fate := fate);
    var after := tokens[i := token];
    forall k | 0 <= k < |after| ensures RankedAt(after, k) {
      assert RankedAt(tokens, k);
      if i <= k {
        assert after[..k + 1] == tokens[..k + 1][i := token];
        CountedOfUpdate(tokens[..k + 1], i, token);
      } else {
        assert after[..k + 1] == tokens[..k + 1];
      }
    }
  }

  /** A new claim ranks last, and its snapshot is the whole count. */
  lemma {:induction false} RankedAfterClaim(tokens: seq<Token>, token: Token)
    requires Ranked(tokens) && token.fate.Outstanding? && token.claim.attempts == Counted(tokens) + 1
    ensures Ranked(tokens + [token])
  {
    var after := tokens + [token];
    CountedOfAppend(tokens, token);
    forall k | 0 <= k < |after|
      ensures RankedAt(after, k)
    {
      if k < |tokens| {
        assert RankedAt(tokens, k);
        assert after[..k + 1] == tokens[..k + 1];
      } else {
        assert after[..k + 1] == after;
      }
    }
  }

  /** Claims that count are the claims that were not deferred. */
  lemma {:induction false} CountedPlusDeferrals(tokens: seq<Token>)
    ensures Counted(tokens) + Deferrals(tokens) == |tokens|
  {
    if tokens != [] {
      CountedPlusDeferrals(tokens[..|tokens| - 1]);
    }
  }

  /** Every retried claim counts, so the last of them ranks at least as high as their number. */
  lemma {:induction false} RetriesAreFew(tokens: seq<Token>)
    requires Ranked(tokens)
    ensures Retries(tokens) < MAX_SEND_ATTEMPTS
    ensures Retries(tokens) <= Counted(tokens)
  {
    if tokens != [] {
      var init := tokens[..|tokens| - 1];
      forall k | 0 <= k < |init| ensures RankedAt(init, k) {
        assert RankedAt(tokens, k);
        assert init[..k + 1] == tokens[..k + 1];
      }
      RetriesAreFew(init);
      assert tokens[..|tokens|] == tokens;
      assert RankedAt(tokens, |tokens| - 1);
    }
  }
}
