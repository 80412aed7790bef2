/** The audit of an integration turn: one pass over its items, against what it decides. */
module Auditors {
  import opened Wrappers
  import opened Text
  import opened Json
  import opened Canonical
  import opened RunTypes
  import opened Machine
  import opened Merges

  const PLUGIN := "worktree-merge-consensus@worktree-merge-consensus"
  const LEGACY_SERVER := "worktreeMergeConsensus"
  const PATCH_TOOL := "consensus_apply_patch"

  /** The turn's own request, and the hash of the patch that is on record. */
  datatype Request = Request(run: State, requestHash: string, patchHash: string, legacyServer: bool)

  /** `integration_command_blocker`: the command policy of the run. */
  const COMMAND_ALLOWED: (State, Value) -> bool

  datatype Blocker =
    | ItemsUnavailable | NoItems | ItemWithoutType | Compaction | CommandAfterEnd | CommandPolicy
    | PatchAfterEnd | PatchIdentity | FailedRecordedPatch | CompletedOtherPatch | SecondCompletedPatch
    | FailedAfterSuccess | PatchStatus | SideEffects | NoCompletedPatch

  // ----- one item

  function TypeOf(item: Value): Option<string> {
    GetString(item, "type")
  }

  predicate PlainCompaction(item: Value) {
    && item.Object?
    && item.fields.Keys == {"id", "type"}
    && GetString(item, "id").Some?
    && GetString(item, "id").value != ""
  }

  function Argument(item: Value, key: string): Option<string> {
    match Get(item, "arguments")
    case Some(arguments) => GetString(arguments, key)
    case None => None
  }

  /** The call is to the one controlled patch tool, for exactly this run and request. */
  predicate IsControlledPatch(r: Request, item: Value) {
    var server, plugin := GetString(item, "server"), Get(item, "pluginId");
    && (plugin == Some(String(PLUGIN)) || (server == Some(PARTICIPANT_SERVER) && plugin == Some(Null)))
    && (server == Some(PARTICIPANT_SERVER) || (r.legacyServer && server == Some(LEGACY_SERVER)))
    && GetString(item, "tool") == Some(PATCH_TOOL)
    && Get(item, "appContext") in {None, Some(Null)}
    && Argument(item, "run_id") == Some(r.run.facts.runId)
    && Argument(item, "request_hash") == Some(r.requestHash)
    && Argument(item, "patch").Some?
    && !Blank(Argument(item, "patch").value)
  }

  /** The three ways in which a patch call can be owned. */
  predicate IsOwned(server: Option<string>, plugin: Option<Value>, legacy: bool) {
    || (server == Some(PARTICIPANT_SERVER) && plugin == Some(String(PLUGIN)))
    || (server == Some(PARTICIPANT_SERVER) && plugin == Some(Null))
    || (server == Some(LEGACY_SERVER) && plugin == Some(String(PLUGIN)) && legacy)
  }

  /** A call counts exactly if it is owned, asks the patch tool for this run and this request, and brings
      a patch. */
  lemma ControlledPatchMeans(r: Request, item: Value)
    ensures IsControlledPatch(r, item) <==>
      && IsOwned(GetString(item, "server"), Get(item, "pluginId"), r.legacyServer)
      && GetString(item, "tool") == Some(PATCH_TOOL)
      && (Get(item, "appContext").Some? ==> Get(item, "appContext").value == Null)
      && Get(item, "arguments").Some?
      && var arguments := Get(item, "arguments").value;
        && GetString(arguments, "run_id") == Some(r.run.facts.runId)
        && GetString(arguments, "request_hash") == Some(r.requestHash)
        && GetString(arguments, "patch").Some?
        && !Blank(GetString(arguments, "patch").value)
  {
    hide Blank, PARTICIPANT_SERVER, LEGACY_SERVER, PLUGIN, PATCH_TOOL;
  }

  predicate IsBareItem(item: Value, id: string, kind: Value) {
    item == Object(map["id" := String(id), "type" := kind])
  }

  /** A compaction is harmless if it says nothing but which one it is. */
  lemma PlainCompactionMeans(item: Value)
    ensures PlainCompaction(item) <==> exists id: string, kind: Value :: id != "" && IsBareItem(item, id, kind)
  {
    if PlainCompaction(item) {
      assert item.fields == map["id" := item.fields["id"], "type" := item.fields["type"]];
      assert IsBareItem(item, item.fields["id"].s, item.fields["type"]);
    }
  }

  function PatchHash(patch: string): string {
    CanonicalHash(Object(map["patch" := String(patch)]))
  }

  lemma PatchHashIdentifies(a: string, b: string)
    requires NoCollision(Object(map["patch" := String(a)]), Object(map["patch" := String(b)]))
    ensures PatchHash(a) == PatchHash(b) <==> a == b
  {
    hide CanonicalHash, NoCollision;
    var left, right := Object(map["patch" := String(a)]), Object(map["patch" := String(b)]);
    HashIdentifies(left, right);
    assert left.fields["patch"] == String(a) && right.fields["patch"] == String(b);
  }

  predicate IsPatchCall(item: Value) {
    TypeOf(item) == Some("mcpToolCall")
  }

  predicate IsCommand(item: Value) {
    TypeOf(item) == Some("commandExecution")
  }

  /** A message after which nothing may be executed; only commentary may precede execution. */
  predicate EndsExecution(item: Value) {
    TypeOf(item) == Some("agentMessage") && GetString(item, "phase") != Some("commentary")
  }

  predicate AllowedItem(r: Request, item: Value) {
    match TypeOf(item)
    case Some(t) =>
      || t in {"userMessage", "reasoning", "agentMessage"}
      || (t == "contextCompaction" && PlainCompaction(item))
      || (t == "commandExecution" && COMMAND_ALLOWED(r.run, item))
      || (t == "mcpToolCall" && IsControlledPatch(r, item))
    case None => false
  }

  predicate RecordsPatch(r: Request, item: Value) {
    Argument(item, "patch").Some? && PatchHash(Argument(item, "patch").value) == r.patchHash
  }

  /** The completed call of the recorded patch. */
  predicate PatchDone(r: Request, item: Value) {
    IsPatchCall(item) && GetString(item, "status") == Some("completed") && RecordsPatch(r, item)
  }

  /** A failed call of some other patch. */
  predicate PatchFailed(r: Request, item: Value) {
    IsPatchCall(item) && GetString(item, "status") == Some("failed") && !RecordsPatch(r, item)
  }

  // ----- the whole turn

  /** Call `p` completed the recorded patch, and every other call failed before it. */
  predicate SingleSuccess(r: Request, items: seq<Value>, p: nat) {
    && p < |items|
    && PatchDone(r, items[p])
    && forall q | 0 <= q < |items| && q != p && IsPatchCall(items[q]) :: q < p && PatchFailed(r, items[q])
  }

  predicate NothingAfterEnd(items: seq<Value>) {
    forall i, j | 0 <= i < j < |items| && EndsExecution(items[i]) ::
      !IsCommand(items[j]) && !IsPatchCall(items[j])
  }

  predicate AllAllowed(r: Request, items: seq<Value>) {
    forall i | 0 <= i < |items| :: AllowedItem(r, items[i])
  }

  predicate Recoverable(r: Request, items: seq<Value>) {
    && items != []
    && AllAllowed(r, items)
    && NothingAfterEnd(items)
    && exists p | 0 <= p < |items| :: SingleSuccess(r, items, p)
  }

  /** The state of the pass over `items`: whether the recorded patch was seen, at `p`, and whether
      execution has ended. */
  predicate Passed(r: Request, items: seq<Value>, done: bool, ended: bool, p: nat) {
    && AllAllowed(r, items)
    && NothingAfterEnd(items)
    && (ended <==> exists i | 0 <= i < |items| :: EndsExecution(items[i]))
    && (if done then SingleSuccess(r, items, p)
        else forall q | 0 <= q < |items| && IsPatchCall(items[q]) :: PatchFailed(r, items[q]))
  }

  lemma TypesAreApart(item: Value)
    ensures IsPatchCall(item) ==> !IsCommand(item) && !EndsExecution(item)
    ensures IsCommand(item) ==> !EndsExecution(item)
  {
  }

  lemma PassNothing(r: Request)
    ensures Passed(r, [], false, false, 0)
  {
  }

  /** An item that neither runs anything nor is a patch call. */
  lemma PassQuiet(r: Request, items: seq<Value>, item: Value, done: bool, ended: bool, p: nat)
    requires Passed(r, items, done, ended, p) && AllowedItem(r, item)
    requires !IsPatchCall(item) && !(IsCommand(item) && ended)
    ensures Passed(r, items + [item], done, ended || EndsExecution(item), p)
  {
    hide AllowedItem, PatchDone, PatchFailed, IsPatchCall, IsCommand, EndsExecution;
    var longer := items + [item];
    assert forall i | 0 <= i < |items| :: longer[i] == items[i];
    assert longer[|items|] == item;
    if EndsExecution(item) {
      TypesAreApart(item);
    }
    if IsCommand(item) {
      TypesAreApart(item);
    }
  }

  lemma PassPatch(r: Request, items: seq<Value>, item: Value, p: nat)
    requires Passed(r, items, false, false, p) && AllowedItem(r, item)
    requires PatchDone(r, item) || PatchFailed(r, item)
    ensures Passed(r, items + [item], PatchDone(r, item), false,
      if PatchDone(r, item) then |items| else p)
  {
    hide AllowedItem, IsPatchCall, IsCommand, EndsExecution, RecordsPatch;
    var longer := items + [item];
    assert forall i | 0 <= i < |items| :: longer[i] == items[i];
    assert longer[|items|] == item;
    TypesAreApart(item);
  }

  // ----- why a turn is refused

  lemma Refused(r: Request, items: seq<Value>, i: nat, done: bool, ended: bool, p: nat)
    requires i < |items| && Passed(r, items[..i], done, ended, p)
    requires || !AllowedItem(r, items[i])
      || (ended && (IsCommand(items[i]) || IsPatchCall(items[i])))
      || (IsPatchCall(items[i]) && done)
      || (IsPatchCall(items[i]) && !PatchDone(r, items[i]) && !PatchFailed(r, items[i]))
    ensures !Recoverable(r, items)
  {
    hide AllowedItem, IsCommand, RecordsPatch, EndsExecution;
    var front := items[..i];
    assert forall k | 0 <= k < i :: front[k] == items[k];
    if ended && (IsCommand(items[i]) || IsPatchCall(items[i])) {
      var k :| 0 <= k < i && EndsExecution(front[k]);
      assert EndsExecution(items[k]);
    } else if done && IsPatchCall(items[i]) {
      assert PatchDone(r, items[p]);
      forall n | 0 <= n < |items| ensures !SingleSuccess(r, items, n) {
        assert n == p ==> !(i < n);
      }
    }
  }

  lemma DoneIsNotFailed(r: Request, item: Value)
    ensures PatchDone(r, item) ==> IsPatchCall(item) && !PatchFailed(r, item)
  {
  }

  lemma NeverDone(r: Request, items: seq<Value>, ended: bool, p: nat)
    requires Passed(r, items, false, ended, p)
    ensures !Recoverable(r, items)
  {
    hide AllowedItem, PatchDone, PatchFailed, EndsExecution, IsCommand;
    forall n | 0 <= n < |items| ensures !SingleSuccess(r, items, n) {
      DoneIsNotFailed(r, items[n]);
    }
  }

  /** `recoverable_integration_turn_blocker`: one pass with three flags. It finds no blocker exactly
      if the turn has items, all allowed, one of which completed the recorded patch, every other
      patch call failed before that with another patch, and nothing runs after the final answer. */
  method RecoverableIntegrationTurnBlocker(r: Request, turn: Value) returns (blocker: Option<Blocker>)
    ensures blocker.None? <==>
      GetArray(turn, "items").Some? && Recoverable(r, GetArray(turn, "items").value)
  {
    hide AllowedItem, Passed, Recoverable, PatchDone, PatchFailed, EndsExecution;
    var found := GetArray(turn, "items");
    if found.None? {
      return Some(ItemsUnavailable);
    }
    var items := found.value;
    if items == [] {
      assert !Recoverable(r, items) by { NoneIsNotRecoverable(r); }
      return Some(NoItems);
    }
    var completedPatchCalls := 0;
    var completedPatchSeen := false;
    var finalAgentSeen := false;
    ghost var p: nat := 0;
    PassNothing(r);
    assert items[..0] == [];
    for i := 0 to |items|
      invariant Passed(r, items[..i], completedPatchSeen, finalAgentSeen, p)
      invariant completedPatchCalls == if completedPatchSeen then 1 else 0
    {
      var item := items[i];
      assert items[..i + 1] == items[..i] + [item];
      var cause := ItemBlocker(r, item, completedPatchSeen, finalAgentSeen);
      if cause.Some? {
        Refused(r, items, i, completedPatchSeen, finalAgentSeen, p);
        return cause;
      }
      if IsPatchCall(item) {
        PassPatch(r, items[..i], item, p);
        if GetString(item, "status") == Some("completed") {
          assert PatchDone(r, item) by { StatusDecides(r, item); }
          completedPatchSeen := true;
          completedPatchCalls := completedPatchCalls + 1;
          p := i;
        } else {
          assert !PatchDone(r, item) by { StatusDecides(r, item); }
        }
      } else {
        PassQuiet(r, items[..i], item, completedPatchSeen, finalAgentSeen, p);
        finalAgentSeen := finalAgentSeen || EndsExecution(item);
      }
    }
    assert items[..|items|] == items;
    if completedPatchCalls != 1 {
      NeverDone(r, items, finalAgentSeen, p);
      return Some(NoCompletedPatch);
    }
    PassedIsRecoverable(r, items, finalAgentSeen, p);
    return None;
  }

  lemma NoneIsNotRecoverable(r: Request)
    ensures !Recoverable(r, [])
  {
  }

  lemma PassedIsRecoverable(r: Request, items: seq<Value>, ended: bool, p: nat)
    requires Passed(r, items, true, ended, p)
    ensures Recoverable(r, items)
  {
    hide AllAllowed, NothingAfterEnd, PatchDone, PatchFailed;
  }

  lemma StatusDecides(r: Request, item: Value)
    requires PatchDone(r, item) || PatchFailed(r, item)
    ensures PatchDone(r, item) <==> GetString(item, "status") == Some("completed")
  {
  }

  /** The arms of the pass that can stop it at one item. */
  method ItemBlocker(r: Request, item: Value, completedPatchSeen: bool, finalAgentSeen: bool)
    returns (blocker: Option<Blocker>)
    ensures blocker.Some? <==>
      || !AllowedItem(r, item)
      || (finalAgentSeen && (IsCommand(item) || IsPatchCall(item)))
      || (IsPatchCall(item) && completedPatchSeen)
      || (IsPatchCall(item) && !PatchDone(r, item) && !PatchFailed(r, item))
  {
    hide IsControlledPatch, PlainCompaction, PatchHash;
    var itemType := TypeOf(item);
    if itemType.None? {
      return Some(ItemWithoutType);
    }
    if itemType.value in {"userMessage", "reasoning", "agentMessage"} {
      return None;
    }
    if itemType.value == "contextCompaction" {
      return if PlainCompaction(item) then None else Some(Compaction);
    }
    if itemType.value == "commandExecution" {
      return if finalAgentSeen then Some(CommandAfterEnd)
             else if COMMAND_ALLOWED(r.run, item) then None
             else Some(CommandPolicy);
    }
    if itemType.value != "mcpToolCall" {
      return Some(SideEffects);
    }
    if finalAgentSeen {
      return Some(PatchAfterEnd);
    }
    if !IsControlledPatch(r, item) {
      return Some(PatchIdentity);
    }
    blocker := PatchBlocker(r, item, completedPatchSeen);
  }

  method PatchBlocker(r: Request, item: Value, completedPatchSeen: bool) returns (blocker: Option<Blocker>)
    requires IsPatchCall(item) && IsControlledPatch(r, item)
    ensures blocker.Some? <==>
      completedPatchSeen || (!PatchDone(r, item) && !PatchFailed(r, item))
  {
    var recorded := PatchHash(Argument(item, "patch").value) == r.patchHash;
    var status := GetString(item, "status");
    if status == Some("failed") && !completedPatchSeen {
      return if recorded then Some(FailedRecordedPatch) else None;
    }
    if status == Some("completed") && !completedPatchSeen {
      return if recorded then None else Some(CompletedOtherPatch);
    }
    if status == Some("completed") {
      return Some(SecondCompletedPatch);
    }
    if status == Some("failed") {
      return Some(FailedAfterSuccess);
    }
    return Some(PatchStatus);
  }

  // ----- merged turns

  lemma {:induction false} AgentsComeLast(items: seq<Value>, i: nat, j: nat)
    requires Partition(items) == items && i < j < |items| && KindOf(items[i]) == AgentMessage
    ensures KindOf(items[j]) == AgentMessage
  {
    var front := OfKind(items, UserMessage) + OfKind(items, NonMessage);
    forall kind ensures forall x :: x in OfKind(items, kind) <==> x in items && KindOf(x) == kind {
      OfKindIsFilter(items, kind);
    }
    assert forall k | 0 <= k < |front| :: front[k] in front;
    AgentIndex(front, OfKind(items, AgentMessage), i);
    assert items[j] == OfKind(items, AgentMessage)[j - |front|];
  }

  lemma AgentIndex(front: seq<Value>, agents: seq<Value>, i: nat)
    requires i < |front + agents| && KindOf((front + agents)[i]) == AgentMessage
    requires forall k | 0 <= k < |front| :: KindOf(front[k]) != AgentMessage
    ensures |front| <= i
  {
    hide KindOf;
  }

  /** In a merged turn agent messages come last, so nothing ever runs after one. */
  lemma MergedTurnsEndWithAgents(persisted: Value, event: Value, completed: seq<Value>)
    requires Agrees(persisted, event, completed)
    ensures NothingAfterEnd(GetArray(MergedTurn(persisted, event, completed), "items").value)
  {
    MergedItems(persisted, event, completed);
    var items := GetArray(MergedTurn(persisted, event, completed), "items").value;
    OrderIsVacuous(items);
  }

  lemma OrderIsVacuous(items: seq<Value>)
    requires Partition(items) == items
    ensures NothingAfterEnd(items)
  {
    hide Partition;
    forall i, j | 0 <= i < j < |items| && EndsExecution(items[i])
      ensures !IsCommand(items[j]) && !IsPatchCall(items[j])
    {
      AgentsComeLast(items, i, j);
    }
  }
}
