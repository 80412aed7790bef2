/** The coordinator's own evidence: written as JSON, read back by the state machine, and always
    complete for the frozen commands. */
module Evidences {
  import opened Wrappers
  import opened Text
  import opened Json
  import opened Canonical
  import opened RunTypes
  import opened Machine
  import opened Retries
  import opened Normalisation

  // ----- JSON round trips

  predicate FitsInt64(n: int) {
    -0x8000_0000_0000_0000 <= n < 0x8000_0000_0000_0000
  }

  lemma EntryRoundTrip(e: Evidence)
    requires FitsInt64(e.exitCode)
    ensures ParseEvidenceEntry(EvidenceValue(e)) == Some(e)
  {
    var fields := EvidenceValue(e).fields;
    assert fields["command"] == String(e.command);
    assert fields["exit_code"] == Number(e.exitCode);
    assert fields["turn_id"] == String(e.turnId);
    assert fields["item_id"] == String(e.itemId);
    assert fields["cwd"] == String(e.cwd);
  }

  lemma {:induction false} EntriesRoundTrip(evidence: seq<Evidence>)
    requires forall e | e in evidence :: FitsInt64(e.exitCode)
    ensures ParseEntries(EvidenceValues(evidence).items) == Some(evidence)
  {
    hide EvidenceValue, ParseEvidenceEntry;
    var values := EvidenceValues(evidence).items;
    if evidence != [] {
      EntryRoundTrip(evidence[0]);
      EntriesRoundTrip(evidence[1..]);
      assert values[1..] == EvidenceValues(evidence[1..]).items;
      assert evidence == [evidence[0]] + evidence[1..];
    }
  }

  /** An entry may also be the array of its fields, in their order. */
  lemma ArrayIsRead(e: Evidence)
    requires FitsInt64(e.exitCode)
    ensures ParseEvidenceEntry(Array([String(e.command), Number(e.exitCode), String(e.turnId),
                                      String(e.itemId), String(e.cwd)])) == Some(e)
  {
  }

  lemma FailureArrayIsRead(f: Failure)
    requires FitsInt64(f.exitCode)
    ensures ParseFailure(Array([String(f.command), Number(f.exitCode), String(f.itemId), String(f.output)]))
      == Some(f)
  {
  }

  lemma FailureRoundTrip(f: Failure)
    requires FitsInt64(f.exitCode)
    ensures ParseFailure(FailureValue(f)) == Some(f)
  {
    var fields := FailureValue(f).fields;
    assert fields.Keys == FAILURE_FIELDS;
    assert fields["command"] == String(f.command);
    assert fields["exit_code"] == Number(f.exitCode);
    assert fields["item_id"] == String(f.itemId);
    assert fields["output"] == String(f.output);
  }

  lemma {:induction false} FailuresRoundTrip(failures: seq<Failure>)
    requires forall f | f in failures :: FitsInt64(f.exitCode)
    ensures ParseFailures(FailureValues(failures).items) == Some(failures)
  {
    hide FailureValue, ParseFailure;
    var values := FailureValues(failures).items;
    if failures != [] {
      FailureRoundTrip(failures[0]);
      FailuresRoundTrip(failures[1..]);
      assert values[1..] == FailureValues(failures[1..]).items;
      assert failures == [failures[0]] + failures[1..];
    }
  }

  // ----- the failures are those of the failed evidence, in order

  lemma {:induction false} FailedOnlyExtends(evidence: seq<Evidence>, e: Evidence)
    ensures FailedOnly(evidence + [e]) == FailedOnly(evidence) + if e.exitCode != 0 then [e] else []
  {
    if evidence == [] {
      assert evidence + [e] == [e];
      assert [e][1..] == [];
    } else {
      assert (evidence + [e])[1..] == evidence[1..] + [e];
      FailedOnlyExtends(evidence[1..], e);
    }
  }

  predicate FailuresMatch(failures: seq<Failure>, failed: seq<Evidence>) {
    && |failures| == |failed|
    && forall i | 0 <= i < |failed| :: FailureMatches(failures[i], failed[i])
  }

  lemma {:induction false} FailuresMatchEvidence(s: State, w: World, outcomes: seq<Outcome>, n: nat)
    requires s.result.workspace.Some? && n <= |outcomes| && n <= |s.policy.requiredTests|
    ensures FailuresMatch(FailuresUpTo(s, w, outcomes, n), FailedOnly(EvidenceUpTo(s, w, outcomes, n)))
    ensures forall f | f in FailuresUpTo(s, w, outcomes, n) :: FitsInt64(f.exitCode)
  {
    if n > 0 {
      FailuresMatchEvidence(s, w, outcomes, n - 1);
      FailedOnlyExtends(EvidenceUpTo(s, w, outcomes, n - 1), EvidenceAt(s, w, outcomes, n - 1));
      assert EvidenceUpTo(s, w, outcomes, n)
          == EvidenceUpTo(s, w, outcomes, n - 1) + [EvidenceAt(s, w, outcomes, n - 1)];
    }
  }

  lemma {:induction false} PassingHasNoFailures(evidence: seq<Evidence>)
    ensures FailedOnly(evidence) == [] <==> Passing(evidence)
  {
    if evidence != [] {
      PassingHasNoFailures(evidence[1..]);
      assert evidence == [evidence[0]] + evidence[1..];
    }
  }

  /** Failures written by the coordinator are canonical for its own evidence. */
  lemma CoordinatorFailuresAreCanonical(failures: seq<Failure>, evidence: seq<Evidence>)
    requires FailuresMatch(failures, FailedOnly(evidence)) && !Passing(evidence)
    requires forall f | f in failures :: FitsInt64(f.exitCode)
    ensures CanonicalFailures(FailureValues(failures), evidence) == Some(FailureValues(failures))
  {
    hide CanonicalHash, FailureMatches;
    FailuresRoundTrip(failures);
    PassingHasNoFailures(evidence);
  }

  // ----- every frozen command exactly once

  lemma {:induction false} CountIsOne(evidence: seq<Evidence>, k: nat)
    requires k < |evidence|
    requires forall i, j | 0 <= i < j < |evidence| :: evidence[i].command != evidence[j].command
    ensures CountCommand(evidence, evidence[k].command) == 1
  {
    if k == 0 {
      CountIsZero(evidence[1..], evidence[0].command);
    } else {
      CountIsOne(evidence[1..], k - 1);
    }
  }

  lemma {:induction false} CountIsZero(evidence: seq<Evidence>, command: string)
    requires forall i | 0 <= i < |evidence| :: evidence[i].command != command
    ensures CountCommand(evidence, command) == 0
  {
    if evidence != [] {
      CountIsZero(evidence[1..], command);
    }
  }

  lemma {:induction false} StartsVisibly(s: string)
    requires s != "" && !IsSpace(s[0])
    ensures !Blank(s)
  {
    assert TrimStart(s) == s;
    EndsVisibly(s);
  }

  lemma {:induction false} EndsVisibly(s: string)
    requires s != "" && !IsSpace(s[0])
    ensures TrimEnd(s) != ""
  {
    if IsSpace(s[|s| - 1]) {
      EndsVisibly(s[..|s| - 1]);
    }
  }

  lemma ItemIdIsVisible(requestHash: string, index: nat)
    ensures !Blank(ItemId(requestHash, index))
  {
    var id := ItemId(requestHash, index);
    assert id[0] == 'c';
    StartsVisibly(id);
  }

  lemma {:induction false} DecimalIsInjective(m: nat, n: nat)
    requires Decimal(m) == Decimal(n)
    ensures m == n
  {
    var a, b := Decimal(m), Decimal(n);
    assert a[|a| - 1] == DecimalDigit(m % 10) && b[|b| - 1] == DecimalDigit(n % 10);
    DigitsDiffer(m % 10, n % 10);
    if m >= 10 && n >= 10 {
      assert a[..|a| - 1] == Decimal(m / 10) && b[..|b| - 1] == Decimal(n / 10);
      DecimalIsInjective(m / 10, n / 10);
    }
  }

  lemma DigitsDiffer(m: nat, n: nat)
    requires m < 10 && n < 10 && DecimalDigit(m) == DecimalDigit(n)
    ensures m == n
  {
  }

  /** No two commands of a request share an item id. */
  lemma ItemIdsDiffer(requestHash: string, i: nat, j: nat)
    requires ItemId(requestHash, i) == ItemId(requestHash, j)
    ensures i == j
  {
    var front := "coordinator-command/" + requestHash + "/";
    assert ItemId(requestHash, i)[|front|..] == Decimal(i);
    assert ItemId(requestHash, j)[|front|..] == Decimal(j);
    DecimalIsInjective(i, j);
  }

  /** Coordinator evidence for the frozen commands is complete exactly if there are commands, the
      turn has an id and the workspace is an absolute path. */
  lemma CoordinatorEvidenceIsComplete(s: State, w: World, outcomes: seq<Outcome>)
    requires s.result.workspace.Some? && |outcomes| == |s.policy.requiredTests|
    requires DistinctNonblank(s.policy.requiredTests)
    ensures Complete(s.policy.requiredTests, EvidenceUpTo(s, w, outcomes, |outcomes|)) <==>
      && s.policy.requiredTests != []
      && !Blank(w.turnId)
      && IsAbsolute(s.result.workspace.value)
  {
    hide IsAbsolute, Blank, ItemId;
    var required, evidence := s.policy.requiredTests, EvidenceUpTo(s, w, outcomes, |outcomes|);
    forall k | 0 <= k < |required|
      ensures CountCommand(evidence, required[k]) == 1
      ensures EvidenceEntryValid(evidence[k]) <==>
        !Blank(w.turnId) && IsAbsolute(s.result.workspace.value)
    {
      CountIsOne(evidence, k);
      ItemIdIsVisible(w.requestHash, k);
    }
    assert required != [] ==> evidence[0] in evidence;
  }

  // ----- what completeness means

  function Commands(evidence: seq<Evidence>): seq<string> {
    seq(|evidence|, i requires 0 <= i < |evidence| => evidence[i].command)
  }

  lemma {:induction false} CountIsMultiplicity(evidence: seq<Evidence>, command: string)
    ensures CountCommand(evidence, command) == multiset(Commands(evidence))[command]
  {
    if evidence != [] {
      CountIsMultiplicity(evidence[1..], command);
      assert Commands(evidence) == [evidence[0].command] + Commands(evidence[1..]);
    }
  }

  lemma {:induction false} DistinctMultiplicity(commands: seq<string>, c: string)
    requires forall i, j | 0 <= i < j < |commands| :: commands[i] != commands[j]
    ensures multiset(commands)[c] == if c in commands then 1 else 0
  {
    if commands != [] {
      assert commands == [commands[0]] + commands[1..];
      DistinctMultiplicity(commands[1..], c);
    }
  }

  lemma EqualWhenAsLarge(small: multiset<string>, large: multiset<string>)
    requires small <= large && |small| == |large|
    ensures small == large
  {
    assert large == small + (large - small);
    assert |large - small| == 0;
  }

  /** Complete evidence is terminal evidence for each frozen command exactly once and for no other
      command: its commands are a permutation of the frozen ones. */
  lemma CompleteMeansExactlyOnce(required: seq<string>, evidence: seq<Evidence>)
    requires DistinctNonblank(required) && required != []
    requires forall e | e in evidence :: EvidenceEntryValid(e)
    ensures Complete(required, evidence) <==> multiset(Commands(evidence)) == multiset(required)
  {
    forall c ensures multiset(required)[c] == if c in required then 1 else 0 {
      DistinctMultiplicity(required, c);
    }
    forall c ensures CountCommand(evidence, c) == multiset(Commands(evidence))[c] {
      CountIsMultiplicity(evidence, c);
    }
    assert |multiset(Commands(evidence))| == |evidence| && |multiset(required)| == |required|;
    if Complete(required, evidence) {
      EqualWhenAsLarge(multiset(required), multiset(Commands(evidence)));
    }
  }
}
