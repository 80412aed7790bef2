/** The no-progress detector and the frozen test commands, over whole runs. */
module Reviews {
  import opened Wrappers
  import opened Text
  import opened Json
  import opened Ordering
  import opened Canonical
  import opened RunTypes
  import opened Protocol
  import opened Machine
  import opened Retries
  import opened Normalisation
  import opened Invariant
  import opened Steps
  import opened Effects
  import opened Runs

  // ----- what a review fingerprint depends on

  /** The issues a review names: its string ids, trimmed, without the blank ones. */
  function IssueIds(ids: seq<Value>): set<string> {
    set v | v in ids && v.String? && !Blank(v.s) :: Trim(v.s)
  }

  lemma {:induction false} TrimmedIdsAreIssueIds(ids: seq<Value>)
    ensures Elements(TrimmedIds(ids)) == IssueIds(ids)
  {
    if ids != [] {
      var first := if ids[0].String? && !Blank(ids[0].s) then [Trim(ids[0].s)] else [];
      TrimmedIdsAreIssueIds(ids[1..]);
      assert ids == [ids[0]] + ids[1..];
      assert IssueIds(ids) == Elements(first) + IssueIds(ids[1..]);
      assert Elements(first + TrimmedIds(ids[1..])) == Elements(first) + Elements(TrimmedIds(ids[1..]));
    }
  }

  function IssueList(ids: seq<Value>): Value {
    Strings(SortedListing(IssueIds(ids)))
  }

  lemma StringsAreInjective(a: seq<string>, b: seq<string>)
    requires Strings(a) == Strings(b)
    ensures a == b
  {
    forall i | 0 <= i < |a| ensures i < |b| && a[i] == b[i] {
      assert |Strings(a).items| == |Strings(b).items|;
      assert Strings(a).items[i] == Strings(b).items[i];
    }
    assert |Strings(a).items| == |Strings(b).items|;
  }

  lemma IssueHashIsOfIssueList(payload: Value)
    requires GetArray(payload, "issue_ids").Some?
    ensures NormalizedIssueHash(payload)
      == CanonicalHash(IssueList(GetArray(payload, "issue_ids").value))
  {
    var ids := GetArray(payload, "issue_ids").value;
    TrimmedIdsAreIssueIds(ids);
    DedupSortIsListing(TrimmedIds(ids));
  }

  function FingerprintValue(planHash: Option<string>, issueHash: string): Value {
    Object(map["plan" := OptionalString(planHash), "issues" := String(issueHash)])
  }

  lemma FingerprintValueIsInjective(p: Option<string>, i: string, q: Option<string>, j: string)
    requires FingerprintValue(p, i) == FingerprintValue(q, j)
    ensures p == q && i == j
  {
    var left, right := FingerprintValue(p, i).fields, FingerprintValue(q, j).fields;
    assert left["plan"] == right["plan"] && left["issues"] == right["issues"];
  }

  /** What a review is about: the sorted list of the issues it names, or, when it has no such array,
      its whole payload. */
  function Named(payload: Value): Value {
    match GetArray(payload, "issue_ids")
    case Some(ids) => IssueList(ids)
    case None => payload
  }

  lemma IssueHashIsOfNamed(payload: Value)
    ensures NormalizedIssueHash(payload) == CanonicalHash(Named(payload))
  {
    if GetArray(payload, "issue_ids").Some? {
      IssueHashIsOfIssueList(payload);
    }
  }

  /** SHA-256 is taken to tell apart what two reviews name, and the two fingerprinted values. */
  ghost predicate ReviewsApart(p: Option<string>, a: Value, q: Option<string>, b: Value) {
    && NoCollision(Named(a), Named(b))
    && NoCollision(FingerprintValue(p, NormalizedIssueHash(a)),
                   FingerprintValue(q, NormalizedIssueHash(b)))
  }

  /** Two reviews have the same fingerprint exactly if they are about the same plan and name the same. */
  lemma FingerprintIdentifiesReviews(p: Option<string>, a: Value, q: Option<string>, b: Value)
    requires ReviewsApart(p, a, q, b)
    ensures Fingerprint(p, a) == Fingerprint(q, b) <==> p == q && Named(a) == Named(b)
  {
    hide CanonicalHash, NormalizedIssueHash, FingerprintValue, Named, NoCollision;
    IssueHashIsOfNamed(a);
    IssueHashIsOfNamed(b);
    FingerprintIsOfValue(p, a);
    FingerprintIsOfValue(q, b);
    HashIdentifies(Named(a), Named(b));
    HashIdentifies(FingerprintValue(p, NormalizedIssueHash(a)), FingerprintValue(q, NormalizedIssueHash(b)));
    if Fingerprint(p, a) == Fingerprint(q, b) {
      FingerprintValueIsInjective(p, NormalizedIssueHash(a), q, NormalizedIssueHash(b));
    }
  }

  /** Reviews that both list issue ids name the same exactly if they name the same issues: order,
      repetitions, blanks and surrounding space do not count. */
  lemma FingerprintIdentifiesIssues(p: Option<string>, a: Value, q: Option<string>, b: Value)
    requires ReviewsApart(p, a, q, b)
    ensures var left, right := GetArray(a, "issue_ids"), GetArray(b, "issue_ids");
      left.Some? && right.Some? ==>
        (Fingerprint(p, a) == Fingerprint(q, b) <==>
          p == q && IssueIds(left.value) == IssueIds(right.value))
  {
    hide Fingerprint, IssueIds, ReviewsApart;
    FingerprintIdentifiesReviews(p, a, q, b);
    var left, right := GetArray(a, "issue_ids"), GetArray(b, "issue_ids");
    if left.Some? && right.Some? && Named(a) == Named(b) {
      StringsAreInjective(SortedListing(IssueIds(left.value)), SortedListing(IssueIds(right.value)));
      SortedListingIsSorted(IssueIds(left.value));
      SortedListingIsSorted(IssueIds(right.value));
    }
  }

  /** The payload of a v2 rejection lists no issue ids, so two of them have the same fingerprint exactly
      if they are about the same plan and give the same feedback, to the letter. */
  lemma FingerprintIdentifiesFeedback(s: State, body: string, inResult: bool, m: Message,
                                      t: State, other: string, inOther: bool, n: Message)
    requires ChangesMessage(s, body, inResult) == Ok(m) && ChangesMessage(t, other, inOther) == Ok(n)
    requires ReviewsApart(s.plan.hash, m.payload, t.plan.hash, n.payload)
    ensures Fingerprint(s.plan.hash, m.payload) == Fingerprint(t.plan.hash, n.payload) <==>
      s.plan.hash == t.plan.hash && body == other
  {
    hide Fingerprint, ReviewsApart, Markdown;
    FingerprintIdentifiesReviews(s.plan.hash, m.payload, t.plan.hash, n.payload);
    FeedbackNamesItself(body);
    FeedbackNamesItself(other);
  }

  lemma FeedbackNamesItself(body: string)
    ensures Named(Markdown("feedback", body)) == Markdown("feedback", body)
    ensures GetString(Markdown("feedback", body), "feedback") == Some(body)
  {
  }

  lemma FingerprintIsOfValue(p: Option<string>, a: Value)
    ensures Fingerprint(p, a) == CanonicalHash(FingerprintValue(p, NormalizedIssueHash(a)))
  {
  }

  // ----- when the detector fires

  /** The review count changes only with a review, and starts afresh with the first result. */
  predicate ReviewEffect(s: State, e: Event, next: State) {
    next.review ==
      if Delivers(s, e, ChangesRequired) then
        CountReview(s.review, Fingerprint(s.plan.hash, MessageOf(s, e).value.payload))
      else if s.result.sha.None? && next.result.sha.Some? then Review(None, 0)
      else s.review
  }

  lemma MessageReviewEffect(s: State, m: Message, next: State)
    requires ApplyMessage(s, m) == Ok(next)
    ensures next.review ==
      if m.envelope.messageType == ChangesRequired then
        CountReview(s.review, Fingerprint(s.plan.hash, m.payload))
      else if s.result.sha.None? && next.result.sha.Some? then Review(None, 0)
      else s.review
  {
    hide Valid, VerifyImmutableEnvelope, ParseEvidence, Complete, Passing, Fingerprint, CountReview,
      StringArrayField, MachineFeedback, VerifyBlockedEnvelope, FreezeTests;
  }

  lemma StepReviewEffect(s: State, e: Event, next: State)
    requires Perform(s, e) == Ok(next)
    ensures ReviewEffect(s, e, next)
  {
    hide Normalize, ApplyMessage, RetryTarget, Fingerprint, CountReview, FreezeTests, TrimAll;
    if e.Deliver? {
      MessageReviewEffect(s, e.message, next);
    } else if e.Respond? {
      MessageReviewEffect(s, Normalize(s, e.response, e.world).value, next);
    }
  }

  /** The fingerprint of the last review before step `n` in the same stage; the result review
      starts with the first integration result. */
  function LastFingerprint(r: Run, n: nat): Option<string>
    requires HasShape(r) && n <= |r.events|
  {
    if n == 0 then None
    else
      var s, e := r.states[n - 1], r.events[n - 1];
      if Delivers(s, e, ChangesRequired) then
        Some(Fingerprint(s.plan.hash, MessageOf(s, e).value.payload))
      else if s.result.sha.None? && r.states[n].result.sha.Some? then None
      else LastFingerprint(r, n - 1)
  }

  lemma {:induction false} FingerprintIsTheLast(r: Run, n: nat)
    requires IsRun(r) && n <= |r.events|
    ensures r.states[n].review.fingerprint == LastFingerprint(r, n)
  {
    hide Step, Perform, Delivers, MessageOf, Fingerprint;
    if n > 0 {
      FingerprintIsTheLast(r, n - 1);
      StepOf(r, n - 1);
      StepReviewEffect(r.states[n - 1], r.events[n - 1], r.states[n]);
    }
  }

  lemma ChangesOutcome(s: State, m: Message, next: State)
    requires Live(s) && ApplyChangesRequired(s, m) == Ok(next)
    requires s.limits.noProgressRounds == 2
    ensures var repeated := s.review.fingerprint == Some(Fingerprint(s.plan.hash, m.payload));
      && (next.status == Blocked <==> repeated || s.round == s.limits.maxRounds)
      && (next.status == Blocked ==>
          next.reasonCode == Some(if repeated then "NO_PROGRESS" else "ROUND_LIMIT"))
      && (next.status != Blocked ==> next.round == s.round + 1)
      && next.review.streak == (if repeated then 2 else 1)
      && next.review.fingerprint == Some(Fingerprint(s.plan.hash, m.payload))
  {
    hide Fingerprint, PlanFits, ResultFits, ActionFits, DistinctNonblank;
  }

  /** In every run, a CHANGES_REQUIRED blocks for want of progress exactly if the last review of the
      same stage had the same fingerprint, whatever failed, was retried or was verified in between;
      otherwise it costs a round, or blocks when none is left. */
  lemma ReviewOutcome(r: Run, n: nat)
    requires IsRun(r) && n < |r.events| && Delivers(r.states[n], r.events[n], ChangesRequired)
    ensures var s, next := r.states[n], r.states[n + 1];
      var repeated := LastFingerprint(r, n)
        == Some(Fingerprint(s.plan.hash, MessageOf(s, r.events[n]).value.payload));
      && (next.status == Blocked <==> repeated || s.round == DEFAULT_MAX_REVIEW_ROUNDS)
      && (next.status == Blocked ==>
          next.reasonCode == Some(if repeated then "NO_PROGRESS" else "ROUND_LIMIT"))
      && (next.status != Blocked ==> next.round == s.round + 1)
      && next.review.streak == (if repeated then 2 else 1)
  {
    hide Inv, Live, Step, Perform, Normalize, ApplyChangesRequired, Fingerprint;
    var s, e, next := r.states[n], r.events[n], r.states[n + 1];
    RunKeeps(r, n);
    StepOf(r, n);
    ReviewIsApplied(s, e, next);
    OnlyLiveIsDriven(s);
    FingerprintIsTheLast(r, n);
    ChangesOutcome(s, MessageOf(s, e).value, next);
  }

  lemma ReviewIsApplied(s: State, e: Event, next: State)
    requires Perform(s, e) == Ok(next) && Delivers(s, e, ChangesRequired)
    ensures s.status == Running && ApplyChangesRequired(s, MessageOf(s, e).value) == Ok(next)
  {
    hide Normalize, ApplyChangesRequired, Valid, VerifyImmutableEnvelope;
  }

  // ----- frozen test commands

  /** The frozen commands only ever grow at their end, stay distinct, and do not change once the
      plan is approved. */
  lemma {:induction false} FrozenTestsOnlyGrow(r: Run, j: nat, k: nat)
    requires IsRun(r) && j <= k < |r.states|
    ensures r.states[j].policy.requiredTests <= r.states[k].policy.requiredTests
    ensures r.states[j].plan.approved ==>
      r.states[k].plan == r.states[j].plan && r.states[k].policy == r.states[j].policy
    ensures DistinctNonblank(r.states[k].policy.requiredTests)
    decreases k - j
  {
    hide Inv, Step, DistinctNonblank, ShaEffect, EvidenceEffect, ApprovalEffect, ApprovesPlan;
    RunKeeps(r, k);
    InvIsCommon(r.states[k]);
    if j < k {
      FrozenTestsOnlyGrow(r, j, k - 1);
      RunKeeps(r, k - 1);
      RunStep(r, k - 1);
    }
  }
}
