/** Which commands a run freezes: those it is configured with, and those that contracts and plans
    declare, each once and in the order in which they were first named. */
module Declarations {
  import opened Wrappers
  import opened Text
  import opened Json
  import opened RunTypes
  import opened Protocol
  import opened Machine
  import opened Retries
  import opened Normalisation
  import opened Invariant
  import opened Steps
  import opened Effects
  import opened Runs
  import opened Reviews

  // ----- what a message declares

  /** The list of test commands in a contract or a plan. */
  function DeclaredItems(m: Message): Option<seq<Value>> {
    match m.envelope.messageType
    case ContractReady =>
      (match Get(m.payload, "contract")
       case Some(contract) => GetArray(contract, "tests")
       case None => None)
    case PlanReady => GetArray(m.payload, "test_commands")
    case _ => None
  }

  /** `c` is one of the items of the list, up to the space around it. */
  predicate Declares(m: Message, c: string) {
    var items := DeclaredItems(m);
    items.Some? && exists i | 0 <= i < |items.value| :: items.value[i].String? && Trim(items.value[i].s) == c
  }

  predicate Configures(e: Event, c: string) {
    e.Configure? && exists i | 0 <= i < |e.commands| :: Trim(e.commands[i]) == c
  }

  /** A step that names `c` as a command to be frozen. */
  predicate Names(s: State, e: Event, c: string) {
    Configures(e, c) || (MessageOf(s, e).Some? && Declares(MessageOf(s, e).value, c))
  }

  // ----- what freezing does

  lemma {:induction false} FreezeHolds(required: seq<string>, commands: seq<string>, c: string)
    ensures c in FreezeTests(required, commands) <==> c in required || c in commands
    decreases commands
  {
    if commands != [] {
      FreezeHolds(if commands[0] in required then required else required + [commands[0]], commands[1..], c);
    }
  }

  /** Where a command is found first; the length when it is not there. */
  function FirstIndex(commands: seq<string>, c: string): (i: nat)
    ensures i <= |commands|
    ensures i < |commands| ==> commands[i] == c
    ensures c !in commands[..i]
    ensures c in commands ==> i < |commands|
  {
    if commands == [] then 0
    else if commands[0] == c then 0
    else
      assert c in commands ==> c in commands[1..];
      1 + FirstIndex(commands[1..], c)
  }

  lemma FirstIndexIs(commands: seq<string>, c: string, i: nat)
    requires i < |commands| && commands[i] == c && c !in commands[..i]
    ensures FirstIndex(commands, c) == i
  {
    var found := FirstIndex(commands, c);
    assert forall k | 0 <= k < i :: commands[..i][k] == commands[k];
    assert forall k | 0 <= k < found :: commands[..found][k] == commands[k];
  }

  /** Leaving out a repetition moves what is first found behind it by one. */
  lemma RepetitionShifts(required: seq<string>, commands: seq<string>, c: string)
    requires commands != [] && commands[0] in required && c in required + commands
    ensures c in required + commands[1..]
    ensures var before, after := FirstIndex(required + commands, c), FirstIndex(required + commands[1..], c);
      after == if before < |required| then before else before - 1
  {
    var all, fewer := required + commands, required + commands[1..];
    var i := FirstIndex(all, c);
    if i < |required| {
      assert all[..i] == fewer[..i];
      FirstIndexIs(fewer, c, i);
    } else {
      assert all[..i][..|required|] == required;
      assert forall k | 0 <= k < |required| :: all[..i][k] == required[k];
      assert i != |required|;
      forall k | 0 <= k < i - 1 ensures fewer[k] != c {
        assert fewer[k] == if k < |required| then all[k] else all[k + 1];
        assert k + 1 < i ==> all[..i][k + 1] == all[k + 1];
        assert all[..i][k] == all[k];
      }
      FirstIndexIs(fewer, c, i - 1);
    }
  }

  /** Of two frozen commands, the one named first stands first. */
  lemma {:induction false} FreezeKeepsOrder(required: seq<string>, commands: seq<string>, c: string, d: string)
    requires c in required + commands && d in required + commands
    requires FirstIndex(required + commands, c) < FirstIndex(required + commands, d)
    ensures FirstIndex(FreezeTests(required, commands), c) < FirstIndex(FreezeTests(required, commands), d)
    decreases commands
  {
    if commands == [] {
      assert required + commands == required;
    } else if commands[0] in required {
      RepetitionShifts(required, commands, c);
      RepetitionShifts(required, commands, d);
      FreezeKeepsOrder(required, commands[1..], c, d);
    } else {
      var longer := required + [commands[0]];
      assert longer + commands[1..] == required + commands;
      FreezeKeepsOrder(longer, commands[1..], c, d);
    }
  }

  // ----- the effect of a step

  lemma FieldItems(v: Value, field: string, c: string)
    requires StringArrayField(v, field).Ok?
    ensures GetArray(v, field).Some?
    ensures c in StringArrayField(v, field).value <==>
      exists i | 0 <= i < |GetArray(v, field).value| ::
        GetArray(v, field).value[i].String? && Trim(GetArray(v, field).value[i].s) == c
    ensures NonblankStrings(GetArray(v, field).value)
    ensures StringArrayField(v, field).value == ItemTexts(GetArray(v, field).value)
  {
    hide Trim, Blank;
    var items, texts := GetArray(v, field).value, StringArrayField(v, field).value;
    assert forall i | 0 <= i < |items| :: texts[i] == Trim(items[i].s) && items[i].String?;
  }

  function ItemTexts(items: seq<Value>): seq<string>
    requires NonblankStrings(items)
  {
    seq(|items|, i requires 0 <= i < |items| => Trim(items[i].s))
  }

  /** A contract freezes its tests, a plan its test commands, in their order, and no other message
      freezes anything. */
  lemma MessageFreezes(s: State, m: Message, next: State, c: string)
    requires ApplyMessage(s, m) == Ok(next)
    ensures c in next.policy.requiredTests <==> c in s.policy.requiredTests || Declares(m, c)
    ensures DeclaredItems(m).Some? ==>
      && NonblankStrings(DeclaredItems(m).value)
      && next.policy.requiredTests == FreezeTests(s.policy.requiredTests, ItemTexts(DeclaredItems(m).value))
    ensures m.envelope.messageType !in {ContractReady, PlanReady} ==> next.policy == s.policy
  {
    hide SchemaAccepts, VerifyImmutableEnvelope, ParseEvidence, Complete, Passing, Fingerprint, StringArrayField,
      MachineFeedback, FreezeTests, VerifyBlockedEnvelope, CountReview, Trim, Blank, ApprovalBinds, IsHex;
    if m.envelope.messageType == ContractReady {
      var contract := Get(m.payload, "contract").value;
      FieldItems(contract, "tests", c);
      FreezeHolds(s.policy.requiredTests, StringArrayField(contract, "tests").value, c);
    } else if m.envelope.messageType == PlanReady {
      if Get(m.payload, "test_commands").Some? {
        FieldItems(m.payload, "test_commands", c);
        FreezeHolds(s.policy.requiredTests, StringArrayField(m.payload, "test_commands").value, c);
      } else {
        FreezeHolds(s.policy.requiredTests, [], c);
      }
    }
  }

  lemma ConfigureFreezes(s: State, branch: string, commands: seq<string>, next: State, c: string)
    requires ConfigureIntegration(s, branch, commands) == Ok(next)
    ensures c in next.policy.requiredTests <==> Configures(Configure(branch, commands), c)
  {
    hide Blank, Trim, FreezeTests;
    FreezeHolds([], TrimAll(commands), c);
    assert forall i | 0 <= i < |commands| :: TrimAll(commands)[i] == Trim(commands[i]);
  }

  /** Every step freezes exactly the commands it names, and keeps those that are frozen. */
  lemma StepFreezes(s: State, e: Event, next: State, c: string)
    requires Inv(s) && Perform(s, e) == Ok(next)
    ensures c in next.policy.requiredTests <==> c in s.policy.requiredTests || Names(s, e, c)
  {
    hide Inv, Live, Normalize, ApplyMessage, RetryTarget, ConfigureIntegration, Declares, Configures;
    if e.Deliver? {
      MessageFreezes(s, e.message, next, c);
      assert !Configures(e, c) by { OnlyConfigureConfigures(e, c); }
    } else if e.Respond? {
      MessageFreezes(s, Normalize(s, e.response, e.world).value, next, c);
      assert !Configures(e, c) by { OnlyConfigureConfigures(e, c); }
    } else if e.Configure? {
      ConfigureFreezes(s, e.branch, e.commands, next, c);
      ConfiguresFirst(s, e);
    } else {
      assert !Configures(e, c) by { OnlyConfigureConfigures(e, c); }
    }
  }

  lemma OnlyConfigureConfigures(e: Event, c: string)
    ensures Configures(e, c) ==> e.Configure?
  {
  }

  lemma ConfiguresFirst(s: State, e: Event)
    requires Inv(s) && e.Configure? && ConfigureIntegration(s, e.branch, e.commands).Ok?
    ensures s.policy.requiredTests == []
  {
    hide Inv, Live, FreezeTests, TrimAll;
    OnlyLiveIsDriven(s);
    LiveIsStaged(s);
  }

  /** In every run, a command is frozen exactly if some step so far named it: the configuration, a
      contract or a recorded plan. */
  lemma {:induction false} FrozenWereNamed(r: Run, n: nat, c: string)
    requires IsRun(r) && n <= |r.events|
    ensures c in r.states[n].policy.requiredTests <==>
      exists k | 0 <= k < n :: Names(r.states[k], r.events[k], c)
  {
    hide Inv, Step, Perform, Names, Linked;
    if n > 0 {
      FrozenWereNamed(r, n - 1, c);
      RunKeeps(r, n - 1);
      StepOf(r, n - 1);
      StepFreezes(r.states[n - 1], r.events[n - 1], r.states[n], c);
    }
  }

  /** What a run verifies is what was named before its plan was approved. */
  lemma ApprovedTestsWereNamed(r: Run, n: nat, m: nat, c: string)
    requires IsRun(r) && n <= m <= |r.events| && r.states[n].plan.approved
    ensures c in r.states[m].policy.requiredTests <==>
      exists k | 0 <= k < n :: Names(r.states[k], r.events[k], c)
  {
    hide Inv, Step, Perform, Names, Linked;
    FrozenWereNamed(r, n, c);
    FrozenTestsOnlyGrow(r, n, m);
  }
}
