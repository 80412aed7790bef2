/** Merging the evidence of a completed turn from its three sources. */
module Merges {
  import opened Wrappers
  import opened Text
  import opened Json
  import opened Canonical
  import opened Deliveries

  // ----- what is compared

  function IdOf(item: Value): Option<string> {
    match GetString(item, "id")
    case Some(id) => if Blank(id) then None else Some(id)
    case None => None
  }

  /** The request a user message delivers, if it does. */
  function DeliveryOf(item: Value): Option<string> {
    match MessageHash(item)
    case Returns(hash) => hash
    case Panics => None
  }

  predicate Unreadable(item: Value) {
    MessageHash(item).Panics?
  }

  /** An item without its id. */
  function Anonymous(item: Value): Value {
    if item.Object? then Object(item.fields - {"id"}) else item
  }

  predicate SameItem(x: Value, y: Value) {
    IdOf(x) == IdOf(y) ==> CanonicalHash(x) == CanonicalHash(y)
  }

  predicate SameDelivery(x: Value, y: Value) {
    DeliveryOf(x).Some? && DeliveryOf(x) == DeliveryOf(y) ==>
      CanonicalHash(Anonymous(x)) == CanonicalHash(Anonymous(y))
  }

  /** Every item has an id and can be read, and copies agree: of one item, and of one delivery. */
  predicate Mergeable(items: seq<Value>) {
    && (forall x | x in items :: IdOf(x).Some? && !Unreadable(x))
    && (forall x, y | x in items && y in items :: SameItem(x, y) && SameDelivery(x, y))
  }

  /** The verdict looks only at which items there are, not at their order or source. */
  lemma MergeableIsUnordered(a: seq<Value>, b: seq<Value>)
    requires forall x :: x in a <==> x in b
    ensures Mergeable(a) <==> Mergeable(b)
  {
  }

  // ----- what is kept

  /** Two items with different ids that are not copies of one delivery. */
  predicate Apart(x: Value, y: Value) {
    IdOf(x) != IdOf(y) && (DeliveryOf(y).Some? ==> DeliveryOf(x) != DeliveryOf(y))
  }

  /** Neither this item nor a copy of its delivery came before. */
  predicate Fresh(before: seq<Value>, item: Value) {
    forall y | y in before :: Apart(y, item)
  }

  function Kept(items: seq<Value>): seq<Value> {
    if items == [] then []
    else
      var front, last := items[..|items| - 1], items[|items| - 1];
      Kept(front) + if Fresh(front, last) then [last] else []
  }

  datatype Kind = UserMessage | NonMessage | AgentMessage

  function KindOf(item: Value): Kind {
    match GetString(item, "type")
    case Some(t) => if t == "userMessage" then UserMessage
                    else if t == "agentMessage" then AgentMessage
                    else NonMessage
    case None => NonMessage
  }

  function OfKind(items: seq<Value>, kind: Kind): seq<Value> {
    if items == [] then []
    else (if KindOf(items[0]) == kind then [items[0]] else []) + OfKind(items[1..], kind)
  }

  /** User messages first, agent messages last, each group in its order. */
  function Partition(items: seq<Value>): seq<Value> {
    OfKind(items, UserMessage) + OfKind(items, NonMessage) + OfKind(items, AgentMessage)
  }

  // ----- the specification of a merge

  function AllItems(persisted: Value, event: Value, completed: seq<Value>): Result<seq<Value>> {
    var e, p := GetArray(event, "items"), GetArray(persisted, "items");
    if e.Some? && p.Some? then Ok(completed + e.value + p.value) else Err(HistoryUnavailable)
  }

  predicate SameTurn(persisted: Value, event: Value) {
    GetString(persisted, "id").Some? && GetString(persisted, "id") == GetString(event, "id")
  }

  predicate Agrees(persisted: Value, event: Value, completed: seq<Value>) {
    && SameTurn(persisted, event)
    && AllItems(persisted, event, completed).Ok?
    && Mergeable(AllItems(persisted, event, completed).value)
  }

  function WithItems(turn: Value, items: seq<Value>): Value {
    if turn.Object? then Object(turn.fields["items" := Array(items)]) else turn
  }

  function MergedTurn(persisted: Value, event: Value, completed: seq<Value>): Value
    requires Agrees(persisted, event, completed)
  {
    WithItems(persisted, Partition(Kept(AllItems(persisted, event, completed).value)))
  }

  /** The items a merge goes through: it stops at the first source that has no items. */
  function Given(persisted: Value, event: Value, completed: seq<Value>): seq<Value> {
    match (GetArray(event, "items"), GetArray(persisted, "items"))
    case (Some(e), Some(p)) => completed + e + p
    case (Some(e), None) => completed + e
    case _ => completed
  }

  /** Item `i` is the first of its id, all before it agree, and reading it panics. */
  predicate PanicsAt(items: seq<Value>, i: nat) {
    && i < |items|
    && Mergeable(items[..i])
    && IdOf(items[i]).Some?
    && Unreadable(items[i])
    && forall y | y in items[..i] :: IdOf(y) != IdOf(items[i])
  }

  predicate MergePanics(items: seq<Value>) {
    exists i | 0 <= i < |items| :: PanicsAt(items, i)
  }

  function Merged(persisted: Value, event: Value, completed: seq<Value>): Attempt<Result<Value>> {
    if !SameTurn(persisted, event) then Returns(Err(HistoryUnavailable))
    else if MergePanics(Given(persisted, event, completed)) then Panics
    else if Agrees(persisted, event, completed) then
      Returns(Ok(MergedTurn(persisted, event, completed)))
    else Returns(Err(HistoryUnavailable))
  }

  lemma MergeableIsMonotone(items: seq<Value>, more: seq<Value>)
    requires Mergeable(items + more)
    ensures Mergeable(items)
  {
    hide SameItem, SameDelivery, IdOf, Unreadable;
    assert forall x | x in items :: x in items + more;
  }

  lemma PrefixIsMergeable(items: seq<Value>, n: nat)
    requires n <= |items| && Mergeable(items)
    ensures Mergeable(items[..n])
  {
    hide Mergeable;
    assert items == items[..n] + items[n..];
    MergeableIsMonotone(items[..n], items[n..]);
  }

  lemma AgreeingDoesNotPanic(items: seq<Value>)
    requires Mergeable(items)
    ensures !MergePanics(items)
  {
    hide IdOf, Unreadable, SameItem, SameDelivery;
    assert forall i | 0 <= i < |items| :: items[i] in items;
  }

  /** Where agreement ends, it is decided whether the merge panics. */
  lemma StopDecides(items: seq<Value>, n: nat)
    requires n < |items| && Mergeable(items[..n]) && !Mergeable(items[..n + 1])
    ensures MergePanics(items) <==> PanicsAt(items, n)
  {
    hide Mergeable;
    forall i | 0 <= i < |items| && PanicsAt(items, i) ensures i == n {
      if i < n {
        assert items[..n][..i] == items[..i] && items[..n][i] == items[i];
        assert PanicsAt(items[..n], i);
        AgreeingDoesNotPanic(items[..n]);
      } else if n < i {
        assert items[..i][..n + 1] == items[..n + 1];
        PrefixIsMergeable(items[..i], n + 1);
      }
    }
  }

  /** A merge succeeds exactly if the sources agree. */
  lemma AgreementSucceeds(persisted: Value, event: Value, completed: seq<Value>)
    ensures Agrees(persisted, event, completed) ==>
      Merged(persisted, event, completed) == Returns(Ok(MergedTurn(persisted, event, completed)))
    ensures !Agrees(persisted, event, completed) ==>
      Merged(persisted, event, completed) in {Panics, Returns(Err(HistoryUnavailable))}
  {
    hide Mergeable, MergePanics, Kept, Partition;
    if Agrees(persisted, event, completed) {
      AgreeingDoesNotPanic(AllItems(persisted, event, completed).value);
    }
  }

  // ----- properties of what is kept

  lemma {:induction false} KeptIsFrom(items: seq<Value>)
    ensures forall x | x in Kept(items) :: x in items
  {
    hide Fresh;
    if items != [] {
      KeptIsFrom(items[..|items| - 1]);
    }
  }

  /** The positions of what is kept. */
  function KeptAt(items: seq<Value>): seq<nat> {
    if items == [] then []
    else
      var n := |items| - 1;
      KeptAt(items[..n]) + if Fresh(items[..n], items[n]) then [n] else []
  }

  /** No item before position `i` has its id or is a copy of its delivery. */
  predicate FirstCopy(items: seq<Value>, i: nat) {
    i < |items| && forall j | 0 <= j < i :: Apart(items[j], items[i])
  }

  lemma {:induction false} KeptAtIsOrdered(items: seq<Value>)
    ensures |KeptAt(items)| == |Kept(items)|
    ensures Increasing(KeptAt(items)) && forall k | k in KeptAt(items) :: k < |items|
    ensures forall k | 0 <= k < |KeptAt(items)| ::
      KeptAt(items)[k] < |items| && Kept(items)[k] == items[KeptAt(items)[k]]
  {
    hide Fresh;
    if items != [] {
      var n := |items| - 1;
      var before := KeptAt(items[..n]);
      KeptAtIsOrdered(items[..n]);
      assert forall k | 0 <= k < |before| :: before[k] in before;
    }
  }

  lemma {:induction false} KeptAtIsFirstCopy(items: seq<Value>, i: nat)
    ensures i in KeptAt(items) <==> FirstCopy(items, i)
  {
    hide Apart, Fresh;
    if items != [] {
      var n := |items| - 1;
      KeptAtIsFirstCopy(items[..n], i);
      FreshIsFirst(items[..n], items[n]);
      assert forall j | 0 <= j < n :: items[..n][j] == items[j];
    }
  }

  lemma FreshIsFirst(before: seq<Value>, item: Value)
    ensures Fresh(before, item) <==> forall j | 0 <= j < |before| :: Apart(before[j], item)
  {
    hide Apart;
  }

  /** What is kept is a subsequence of the sources: exactly the items with no earlier item of their id
      and no earlier copy of their delivery, in the order in which they come. */
  lemma KeptAreTheFirstCopies(items: seq<Value>)
    ensures Increasing(KeptAt(items)) && |KeptAt(items)| == |Kept(items)|
    ensures forall k | 0 <= k < |KeptAt(items)| ::
      KeptAt(items)[k] < |items| && Kept(items)[k] == items[KeptAt(items)[k]]
    ensures forall i: nat :: i in KeptAt(items) <==> FirstCopy(items, i)
  {
    hide KeptAt, Kept, FirstCopy;
    KeptAtIsOrdered(items);
    forall i: nat ensures i in KeptAt(items) <==> FirstCopy(items, i) {
      KeptAtIsFirstCopy(items, i);
    }
  }

  predicate Distinct(items: seq<Value>) {
    forall i, j | 0 <= i < j < |items| :: Apart(items[i], items[j])
  }

  /** Each id, and each delivery, is kept once. */
  lemma {:induction false} KeptIsDistinct(items: seq<Value>)
    ensures Distinct(Kept(items))
  {
    hide Apart;
    if items != [] {
      var front, last := items[..|items| - 1], items[|items| - 1];
      KeptIsDistinct(front);
      KeptIsFrom(front);
      if Fresh(front, last) {
        assert forall i | 0 <= i < |Kept(front)| :: Kept(front)[i] in Kept(front);
      }
    }
  }

  /** SHA-256 is taken to tell apart the items at hand. */
  ghost predicate NoCollisions(items: seq<Value>) {
    forall x, y | x in items && y in items ::
      NoCollision(x, y) && NoCollision(Anonymous(x), Anonymous(y))
  }

  /** `y` is `x`, or another copy of the delivery that `x` is. */
  predicate StandsFor(y: Value, x: Value) {
    || y == x
    || (DeliveryOf(x).Some? && DeliveryOf(y) == DeliveryOf(x) && Anonymous(y) == Anonymous(x))
  }

  lemma AgreeingCopies(items: seq<Value>, x: Value, z: Value)
    requires Mergeable(items) && NoCollisions(items) && x in items && z in items
    ensures IdOf(z) == IdOf(x) ==> z == x
    ensures DeliveryOf(x).Some? && DeliveryOf(z) == DeliveryOf(x) ==> StandsFor(z, x)
  {
    hide CanonicalHash, DeliveryOf, IdOf, NoCollision, Anonymous;
    assert SameItem(x, z) && SameDelivery(x, z);
    HashIdentifies(x, z);
    HashIdentifies(Anonymous(x), Anonymous(z));
  }

  /** Sources agree exactly if every item has an id and can be read, items with one id are equal, and
      copies of one delivery differ in nothing but their ids. */
  lemma MergeableMeansEqualCopies(items: seq<Value>)
    requires NoCollisions(items)
    ensures Mergeable(items) <==>
      && (forall x | x in items :: IdOf(x).Some? && !Unreadable(x))
      && (forall x, y | x in items && y in items && IdOf(x) == IdOf(y) :: x == y)
      && (forall x, y | x in items && y in items && DeliveryOf(x).Some? && DeliveryOf(x) == DeliveryOf(y) ::
          Anonymous(x) == Anonymous(y))
  {
    hide CanonicalHash, DeliveryOf, IdOf, NoCollision, Anonymous;
    forall x, y | x in items && y in items
      ensures CanonicalHash(x) == CanonicalHash(y) <==> x == y
      ensures CanonicalHash(Anonymous(x)) == CanonicalHash(Anonymous(y)) <==> Anonymous(x) == Anonymous(y)
    {
      HashIdentifies(x, y);
      HashIdentifies(Anonymous(x), Anonymous(y));
    }
    assert forall x, y | x in items && y in items :: SameItem(x, y) <==> (IdOf(x) == IdOf(y) ==> x == y);
    assert forall x, y | x in items && y in items :: SameDelivery(x, y) <==>
      (DeliveryOf(x).Some? && DeliveryOf(x) == DeliveryOf(y) ==> Anonymous(x) == Anonymous(y));
  }

  /** Nothing but duplicate delivery copies is lost. */
  lemma {:induction false} NothingIsLost(items: seq<Value>, x: Value) returns (y: Value)
    requires Mergeable(items) && NoCollisions(items) && x in items
    ensures y in Kept(items) && StandsFor(y, x)
    decreases |items|
  {
    hide IdOf, DeliveryOf, Anonymous, NoCollision, SameItem, SameDelivery;
    var front, last := items[..|items| - 1], items[|items| - 1];
    assert items == front + [last];
    if x in front {
      y := NothingIsLost(front, x);
    } else if Fresh(front, last) {
      y := last;
    } else {
      var z :| z in front && !Apart(z, last);
      AgreeingCopies(items, last, z);
      y := NothingIsLost(front, z);
    }
  }

  // ----- partition

  lemma {:induction false} OfKindIsFilter(items: seq<Value>, kind: Kind)
    ensures forall x :: x in OfKind(items, kind) <==> x in items && KindOf(x) == kind
  {
    hide KindOf;
    if items != [] {
      OfKindIsFilter(items[1..], kind);
      assert items == [items[0]] + items[1..];
    }
  }

  lemma {:induction false} OfKindOfConcat(a: seq<Value>, b: seq<Value>, kind: Kind)
    ensures OfKind(a + b, kind) == OfKind(a, kind) + OfKind(b, kind)
  {
    hide KindOf;
    if a == [] {
      assert a + b == b;
    } else {
      var first := if KindOf(a[0]) == kind then [a[0]] else [];
      assert (a + b)[1..] == a[1..] + b && (a + b)[0] == a[0];
      OfKindOfConcat(a[1..], b, kind);
      assert OfKind(a + b, kind) == first + (OfKind(a[1..], kind) + OfKind(b, kind));
    }
  }

  lemma {:induction false} OfKindOfKind(items: seq<Value>, inner: Kind, outer: Kind)
    ensures OfKind(OfKind(items, inner), outer) == if inner == outer then OfKind(items, inner) else []
  {
    hide KindOf;
    if items != [] {
      OfKindOfKind(items[1..], inner, outer);
      var first := if KindOf(items[0]) == inner then [items[0]] else [];
      OfKindOfConcat(first, OfKind(items[1..], inner), outer);
    }
  }

  /** The partition keeps each group in its order, and is a projection. */
  lemma PartitionIsStable(items: seq<Value>, kind: Kind)
    ensures OfKind(Partition(items), kind) == OfKind(items, kind)
    ensures Partition(Partition(items)) == Partition(items)
    ensures multiset(Partition(items)) == multiset(items)
  {
    hide OfKind;
    forall k: Kind ensures OfKind(Partition(items), k) == OfKind(items, k) {
      OfKindOfConcat(OfKind(items, UserMessage) + OfKind(items, NonMessage), OfKind(items, AgentMessage), k);
      OfKindOfConcat(OfKind(items, UserMessage), OfKind(items, NonMessage), k);
      OfKindOfKind(items, UserMessage, k);
      OfKindOfKind(items, NonMessage, k);
      OfKindOfKind(items, AgentMessage, k);
    }
    PartitionPermutes(items);
  }

  /** User messages come first and agent messages last. */
  lemma PartitionIsOrdered(items: seq<Value>, i: nat, j: nat)
    requires i < j < |Partition(items)|
    ensures GetString(Partition(items)[j], "type") == Some("userMessage") ==>
      GetString(Partition(items)[i], "type") == Some("userMessage")
    ensures GetString(Partition(items)[i], "type") == Some("agentMessage") ==>
      GetString(Partition(items)[j], "type") == Some("agentMessage")
  {
    hide OfKind;
    OfKindIsFilter(items, UserMessage);
    OfKindIsFilter(items, NonMessage);
    OfKindIsFilter(items, AgentMessage);
    var users, others, agents := OfKind(items, UserMessage), OfKind(items, NonMessage), OfKind(items, AgentMessage);
    forall k | k in {i, j}
      ensures if k < |users| then Partition(items)[k] in users
        else if k < |users| + |others| then Partition(items)[k] in others
        else Partition(items)[k] in agents
    {
      assert Partition(items) == users + (others + agents);
    }
  }

  lemma {:induction false} PartitionPermutes(items: seq<Value>)
    ensures multiset(OfKind(items, UserMessage)) + multiset(OfKind(items, NonMessage))
      + multiset(OfKind(items, AgentMessage)) == multiset(items)
  {
    hide KindOf;
    if items != [] {
      PartitionPermutes(items[1..]);
      assert items == [items[0]] + items[1..];
    }
  }

  // ----- a merge is a normal form

  lemma {:induction false} DistinctOfKind(items: seq<Value>, kind: Kind)
    requires Distinct(items)
    ensures Distinct(OfKind(items, kind))
  {
    hide Apart, KindOf;
    if items != [] {
      DistinctOfKind(items[1..], kind);
      OfKindIsFilter(items[1..], kind);
      var rest := OfKind(items[1..], kind);
      forall j | 0 <= j < |rest| ensures Apart(items[0], rest[j]) {
        assert rest[j] in items[1..];
        var n :| 0 <= n < |items| - 1 && items[1..][n] == rest[j];
        assert items[n + 1] == rest[j];
      }
    }
  }

  lemma ApartAcrossKinds(items: seq<Value>, x: Value, y: Value)
    requires Distinct(items) && x in items && y in items && KindOf(x) != KindOf(y)
    ensures Apart(x, y)
  {
    hide KindOf;
    var i :| 0 <= i < |items| && items[i] == x;
    var j :| 0 <= j < |items| && items[j] == y;
    assert i < j ==> Apart(items[i], items[j]);
    assert j < i ==> Apart(items[j], items[i]);
  }

  lemma DistinctConcat(a: seq<Value>, b: seq<Value>)
    requires Distinct(a) && Distinct(b)
    requires forall x, y | x in a && y in b :: Apart(x, y)
    ensures Distinct(a + b)
  {
    hide Apart;
    assert forall i | 0 <= i < |a| :: a[i] in a;
    assert forall j | 0 <= j < |b| :: b[j] in b;
  }

  lemma PartitionIsDistinct(items: seq<Value>)
    requires Distinct(items)
    ensures Distinct(Partition(items))
  {
    hide Apart, KindOf, OfKind, Distinct;
    var users, others, agents := OfKind(items, UserMessage), OfKind(items, NonMessage), OfKind(items, AgentMessage);
    forall kind ensures Distinct(OfKind(items, kind)) { DistinctOfKind(items, kind); }
    forall kind ensures forall x :: x in OfKind(items, kind) <==> x in items && KindOf(x) == kind {
      OfKindIsFilter(items, kind);
    }
    forall x, y | x in items && y in items && KindOf(x) != KindOf(y) ensures Apart(x, y) {
      ApartAcrossKinds(items, x, y);
    }
    DistinctConcat(users, others);
    DistinctConcat(users + others, agents);
  }

  lemma {:induction false} DistinctIsKept(items: seq<Value>)
    requires Distinct(items)
    ensures Kept(items) == items
  {
    hide Apart;
    if items != [] {
      var front, last := items[..|items| - 1], items[|items| - 1];
      DistinctIsKept(front);
      assert Fresh(front, last);
      assert items == front + [last];
    }
  }

  lemma {:induction false} RepetitionIsDropped(items: seq<Value>, again: seq<Value>)
    requires forall x | x in again :: x in items
    ensures Kept(items + again) == Kept(items)
    decreases |again|
  {
    hide DeliveryOf, IdOf;
    if again == [] {
      assert items + again == items;
    } else {
      var front, last := again[..|again| - 1], again[|again| - 1];
      assert (items + again)[..|items + again| - 1] == items + front;
      assert (items + again)[|items + again| - 1] == last;
      assert last in items + front && !Apart(last, last);
      RepetitionIsDropped(items, front);
    }
  }

  /** What a merge returns holds every id once, user messages first and agent messages last. */
  lemma MergedItems(persisted: Value, event: Value, completed: seq<Value>)
    requires Agrees(persisted, event, completed)
    ensures var all, merged := AllItems(persisted, event, completed).value,
                               GetArray(MergedTurn(persisted, event, completed), "items");
      && merged == Some(Partition(Kept(all)))
      && Distinct(merged.value)
      && Partition(merged.value) == merged.value
      && Kept(merged.value) == merged.value
      && (forall x | x in merged.value :: x in all)
  {
    hide Apart, Distinct, Kept, Mergeable, OfKind;
    var all := AllItems(persisted, event, completed).value;
    var merged := Partition(Kept(all));
    KeptIsDistinct(all);
    PartitionIsDistinct(Kept(all));
    PartitionIsStable(Kept(all), UserMessage);
    DistinctIsKept(merged);
    KeptIsFrom(all);
    assert forall x | x in merged :: x in multiset(merged);
  }

  /** Apart from its items, the merged turn is the persisted one. */
  lemma MergeKeepsTurn(persisted: Value, event: Value, completed: seq<Value>)
    requires Agrees(persisted, event, completed)
    ensures forall key :: key != "items" ==>
      Get(MergedTurn(persisted, event, completed), key) == Get(persisted, key)
  {
    hide Mergeable, Kept, Partition;
  }

  /** An item has an id if its field says something. */
  lemma IdMeans(item: Value, id: string)
    ensures IdOf(item) == Some(id) <==> GetString(item, "id") == Some(id) && !Blank(id)
  {
    hide Blank;
  }

  /** Merging the result with itself changes nothing. */
  lemma MergeIsIdempotent(persisted: Value, event: Value, completed: seq<Value>)
    requires Agrees(persisted, event, completed)
    ensures var m := MergedTurn(persisted, event, completed);
      Merged(m, m, GetArray(m, "items").value) == Returns(Ok(m))
  {
    hide Apart, Distinct, Kept, Partition, IdOf, SameItem, SameDelivery, Unreadable, MergePanics;
    var m := MergedTurn(persisted, event, completed);
    MergedItems(persisted, event, completed);
    var items := GetArray(m, "items").value;
    RepetitionIsDropped(items, items + items);
    assert items + items + items == items + (items + items);
    assert Mergeable(items + items + items);
    assert WithItems(m, items) == m;
    AgreementSucceeds(m, m, items);
  }

  predicate Succeeds(outcome: Attempt<Result<Value>>) {
    outcome.Returns? && outcome.value.Ok?
  }

  /** Whether a merge succeeds does not depend on which turn is the persisted one. */
  lemma VerdictIsUnordered(persisted: Value, event: Value, completed: seq<Value>)
    ensures Succeeds(Merged(persisted, event, completed)) <==> Succeeds(Merged(event, persisted, completed))
  {
    hide Mergeable, Merged;
    AgreementSucceeds(persisted, event, completed);
    AgreementSucceeds(event, persisted, completed);
    if AllItems(persisted, event, completed).Ok? {
      MergeableIsUnordered(AllItems(persisted, event, completed).value,
                           AllItems(event, persisted, completed).value);
    }
  }

  // ----- the merge as the program runs it

  /** What the two tables hold after `seen`. */
  ghost predicate Tables(seen: seq<Value>, itemHashes: map<string, string>, deliveryHashes: map<string, string>) {
    && Mergeable(seen)
    && (forall x | x in seen ::
        IdOf(x).value in itemHashes && itemHashes[IdOf(x).value] == CanonicalHash(x))
    && (forall id | id in itemHashes :: exists x :: x in seen && IdOf(x) == Some(id))
    && (forall x | x in seen && DeliveryOf(x).Some? ::
        && DeliveryOf(x).value in deliveryHashes
        && deliveryHashes[DeliveryOf(x).value] == CanonicalHash(Anonymous(x)))
    && (forall h | h in deliveryHashes :: exists x :: x in seen && DeliveryOf(x) == Some(h))
  }

  lemma TablesKnowIds(seen: seq<Value>, ids: map<string, string>, deliveries: map<string, string>, item: Value)
    requires Tables(seen, ids, deliveries) && NoCollisions(seen + [item]) && IdOf(item).Some?
    ensures IdOf(item).value in ids ==>
      if ids[IdOf(item).value] == CanonicalHash(item) then item in seen
      else !Mergeable(seen + [item])
    ensures IdOf(item).value !in ids ==> forall y | y in seen :: IdOf(y) != IdOf(item)
  {
    hide CanonicalHash, IdOf, DeliveryOf, NoCollision, SameDelivery, Anonymous;
    if IdOf(item).value in ids {
      var x :| x in seen && IdOf(x) == IdOf(item);
      assert x in seen + [item] && item in seen + [item];
      HashIdentifies(x, item);
      assert ids[IdOf(x).value] == CanonicalHash(x);
      assert SameItem(x, item) || !Mergeable(seen + [item]);
    }
  }

  lemma TablesKnowDeliveries(seen: seq<Value>, ids: map<string, string>, deliveries: map<string, string>, item: Value)
    requires Tables(seen, ids, deliveries) && IdOf(item).Some? && IdOf(item).value !in ids
    requires NoCollisions(seen + [item]) && !Unreadable(item)
    ensures Mergeable(seen + [item]) <==>
      (DeliveryOf(item).Some? && DeliveryOf(item).value in deliveries ==>
        deliveries[DeliveryOf(item).value] == CanonicalHash(Anonymous(item)))
    ensures Fresh(seen, item) <==> !(DeliveryOf(item).Some? && DeliveryOf(item).value in deliveries)
  {
    hide CanonicalHash, IdOf, DeliveryOf, Anonymous, NoCollision, Unreadable;
    TablesKnowIds(seen, ids, deliveries, item);
    var longer := seen + [item];
    assert forall x :: x in longer <==> x in seen || x == item;
    if DeliveryOf(item).Some? && DeliveryOf(item).value in deliveries {
      var x :| x in seen && DeliveryOf(x) == DeliveryOf(item);
      assert !Apart(x, item);
      if deliveries[DeliveryOf(item).value] != CanonicalHash(Anonymous(item)) {
        assert !SameDelivery(x, item);
      }
    }
  }

  lemma TablesAfterRepeat(seen: seq<Value>, ids: map<string, string>, deliveries: map<string, string>, item: Value)
    requires Tables(seen, ids, deliveries) && item in seen
    ensures Tables(seen + [item], ids, deliveries) && Kept(seen + [item]) == Kept(seen)
  {
    hide CanonicalHash, IdOf, DeliveryOf, Anonymous, SameItem, SameDelivery;
    assert forall x :: x in seen + [item] <==> x in seen;
    RepetitionIsDropped(seen, [item]);
  }

  lemma TablesAfterNew(seen: seq<Value>, ids: map<string, string>, deliveries: map<string, string>, item: Value)
    requires Tables(seen, ids, deliveries) && IdOf(item).Some? && IdOf(item).value !in ids
    requires Mergeable(seen + [item])
    requires DeliveryOf(item).Some? && DeliveryOf(item).value in deliveries ==>
      deliveries[DeliveryOf(item).value] == CanonicalHash(Anonymous(item))
    ensures Tables(seen + [item], ids[IdOf(item).value := CanonicalHash(item)],
      if DeliveryOf(item).Some? then deliveries[DeliveryOf(item).value := CanonicalHash(Anonymous(item))]
      else deliveries)
  {
    hide CanonicalHash, IdOf, DeliveryOf, Anonymous, SameItem, SameDelivery, Unreadable;
    var longer := seen + [item];
    assert forall x :: x in longer <==> x in seen || x == item;
    assert forall x | x in seen :: IdOf(x).value in ids;
  }

  datatype Verdict = Agreeing | Disagreeing | Panicking

  /** The closure `append`: one more item, unless it is a copy; an error if it disagrees. */
  method Append(item: Value, ordered: seq<Value>, itemHashes: map<string, string>,
                deliveryHashes: map<string, string>, ghost seen: seq<Value>)
    returns (verdict: Verdict, ordered': seq<Value>, itemHashes': map<string, string>,
             deliveryHashes': map<string, string>)
    requires Tables(seen, itemHashes, deliveryHashes) && ordered == Kept(seen)
    requires NoCollisions(seen + [item])
    ensures verdict == Agreeing <==> Mergeable(seen + [item])
    ensures verdict == Panicking <==>
      IdOf(item).Some? && Unreadable(item) && forall y | y in seen :: IdOf(y) != IdOf(item)
    ensures verdict == Agreeing ==>
      Tables(seen + [item], itemHashes', deliveryHashes') && ordered' == Kept(seen + [item])
  {
    hide Tables, CanonicalHash, NoCollisions, Mergeable, Fresh, IdOf, MessageHash;
    verdict, ordered', itemHashes', deliveryHashes' := Disagreeing, ordered, itemHashes, deliveryHashes;
    var id := IdOf(item);
    if id.None? {
      UnfitIsNotMergeable(seen, item);
      return;
    }
    TablesKnowIds(seen, itemHashes, deliveryHashes, item);
    if id.value in itemHashes {
      IdIsTaken(seen, itemHashes, deliveryHashes, id.value);
      if itemHashes[id.value] == CanonicalHash(item) {
        TablesAfterRepeat(seen, itemHashes, deliveryHashes, item);
        TablesAreMergeable(seen + [item], itemHashes, deliveryHashes);
        verdict := Agreeing;
      }
      return;
    }
    var read := MessageHash(item);
    if read.Panics? {
      UnfitIsNotMergeable(seen, item);
      verdict := Panicking;
      return;
    }
    var request := read.value;
    TablesKnowDeliveries(seen, itemHashes, deliveryHashes, item);
    KeptExtends(seen, item);
    if request.Some? {
      var normalizedHash := CanonicalHash(Anonymous(item));
      if request.value in deliveryHashes {
        if deliveryHashes[request.value] == normalizedHash {
          TablesAfterNew(seen, itemHashes, deliveryHashes, item);
          itemHashes' := itemHashes[id.value := CanonicalHash(item)];
          assert deliveryHashes[request.value := normalizedHash] == deliveryHashes;
          verdict := Agreeing;
        }
        return;
      }
      deliveryHashes' := deliveryHashes[request.value := normalizedHash];
    }
    TablesAfterNew(seen, itemHashes, deliveryHashes, item);
    itemHashes' := itemHashes[id.value := CanonicalHash(item)];
    ordered' := ordered + [item];
    verdict := Agreeing;
  }

  lemma UnfitIsNotMergeable(seen: seq<Value>, item: Value)
    requires IdOf(item).None? || Unreadable(item)
    ensures !Mergeable(seen + [item])
  {
    hide IdOf, Unreadable, SameItem, SameDelivery;
    assert item in seen + [item];
  }

  lemma IdIsTaken(seen: seq<Value>, ids: map<string, string>, deliveries: map<string, string>, id: string)
    requires Tables(seen, ids, deliveries) && id in ids
    ensures exists y :: y in seen && IdOf(y) == Some(id)
  {
    hide IdOf, DeliveryOf, CanonicalHash, Mergeable, Anonymous;
  }

  lemma TablesAreMergeable(seen: seq<Value>, ids: map<string, string>, deliveries: map<string, string>)
    requires Tables(seen, ids, deliveries)
    ensures Mergeable(seen)
  {
    hide Mergeable;
  }

  lemma KeptExtends(seen: seq<Value>, item: Value)
    ensures Kept(seen + [item]) == Kept(seen) + if Fresh(seen, item) then [item] else []
  {
    hide Fresh;
    assert (seen + [item])[..|seen|] == seen;
  }

  method AppendAll(items: seq<Value>, ordered: seq<Value>, itemHashes: map<string, string>,
                   deliveryHashes: map<string, string>, ghost seen: seq<Value>)
    returns (verdict: Verdict, ordered': seq<Value>, itemHashes': map<string, string>,
             deliveryHashes': map<string, string>)
    requires Tables(seen, itemHashes, deliveryHashes) && ordered == Kept(seen)
    requires NoCollisions(seen + items)
    ensures verdict == Agreeing <==> Mergeable(seen + items)
    ensures verdict == Panicking <==> MergePanics(seen + items)
    ensures verdict == Agreeing ==>
      Tables(seen + items, itemHashes', deliveryHashes') && ordered' == Kept(seen + items)
  {
    hide Tables, Kept, Mergeable, MergePanics, Unreadable, IdOf, NoCollision;
    verdict, ordered', itemHashes', deliveryHashes' := Agreeing, ordered, itemHashes, deliveryHashes;
    assert seen + items[..0] == seen;
    for i := 0 to |items|
      invariant verdict == Agreeing
      invariant Tables(seen + items[..i], itemHashes', deliveryHashes')
      invariant ordered' == Kept(seen + items[..i])
    {
      ghost var before := seen + items[..i];
      assert before + [items[i]] == seen + items[..i + 1];
      assert forall x | x in before + [items[i]] :: x in seen + items;
      TablesAreMergeable(before, itemHashes', deliveryHashes');
      verdict, ordered', itemHashes', deliveryHashes' :=
        Append(items[i], ordered', itemHashes', deliveryHashes', before);
      if verdict != Agreeing {
        Stopped(seen, items, i);
        return;
      }
    }
    assert seen + items[..|items|] == seen + items;
    TablesAreMergeable(seen + items, itemHashes', deliveryHashes');
    AgreeingDoesNotPanic(seen + items);
  }

  lemma Stopped(seen: seq<Value>, items: seq<Value>, i: nat)
    requires i < |items| && Mergeable(seen + items[..i])
    requires !Mergeable(seen + items[..i] + [items[i]])
    ensures !Mergeable(seen + items)
    ensures MergePanics(seen + items) <==>
      && IdOf(items[i]).Some?
      && Unreadable(items[i])
      && forall y | y in seen + items[..i] :: IdOf(y) != IdOf(items[i])
  {
    hide Mergeable, MergePanics, IdOf, Unreadable;
    var all, n := seen + items, |seen| + i;
    assert all[..n] == seen + items[..i] && all[n] == items[i];
    assert all[..n + 1] == seen + items[..i] + [items[i]];
    if Mergeable(all) {
      PrefixIsMergeable(all, n + 1);
    }
    StopDecides(all, n);
  }

  /** `merge_completed_turn_evidence`, with one table per kind of copy. */
  method MergeCompletedTurnEvidence(persisted: Value, event: Value, completed: seq<Value>)
    returns (r: Attempt<Result<Value>>)
    requires NoCollisions(Given(persisted, event, completed))
    ensures r == Merged(persisted, event, completed)
  {
    hide Tables, Kept, Mergeable, MergePanics, OfKind, NoCollision;
    if !SameTurn(persisted, event) {
      return Returns(Err(HistoryUnavailable));
    }
    NoTables();
    ghost var given := Given(persisted, event, completed);
    var eventItems, persistedItems := GetArray(event, "items"), GetArray(persisted, "items");
    GivenStarts(given, completed);
    var verdict, ordered, itemHashes, deliveryHashes := AppendAll(completed, [], map[], map[], []);
    assert [] + completed == completed;
    if verdict != Agreeing {
      EarlyVerdict(given, |completed|);
      return if verdict == Panicking then Panics else Returns(Err(HistoryUnavailable));
    }
    if eventItems.None? {
      AgreeingDoesNotPanic(completed);
      return Returns(Err(HistoryUnavailable));
    }
    ghost var both := completed + eventItems.value;
    GivenStarts(given, both);
    verdict, ordered, itemHashes, deliveryHashes :=
      AppendAll(eventItems.value, ordered, itemHashes, deliveryHashes, completed);
    if verdict != Agreeing {
      EarlyVerdict(given, |both|);
      return if verdict == Panicking then Panics else Returns(Err(HistoryUnavailable));
    }
    if persistedItems.None? {
      AgreeingDoesNotPanic(both);
      return Returns(Err(HistoryUnavailable));
    }
    verdict, ordered, itemHashes, deliveryHashes :=
      AppendAll(persistedItems.value, ordered, itemHashes, deliveryHashes, both);
    if verdict != Agreeing {
      return if verdict == Panicking then Panics else Returns(Err(HistoryUnavailable));
    }
    AgreeingDoesNotPanic(given);
    r := Returns(Ok(WithItems(persisted, Partition(ordered))));
  }

  lemma GivenStarts(given: seq<Value>, source: seq<Value>)
    requires source <= given
    ensures given[..|source|] == source
    ensures NoCollisions(given) ==> NoCollisions(source)
  {
    hide NoCollision;
    assert forall x | x in source :: x in given;
  }

  /** A source that does not agree by itself decides the verdict of all that follow. */
  lemma EarlyVerdict(items: seq<Value>, n: nat)
    requires n <= |items| && !Mergeable(items[..n])
    ensures !Mergeable(items) && (MergePanics(items) <==> MergePanics(items[..n]))
  {
    hide Mergeable;
    if Mergeable(items) {
      PrefixIsMergeable(items, n);
    }
    forall i | 0 <= i < |items| ensures PanicsAt(items, i) <==> i < n && PanicsAt(items[..n], i) {
      if i < n {
        assert items[..n][..i] == items[..i];
      } else if Mergeable(items[..i]) {
        assert items[..i][..n] == items[..n];
        PrefixIsMergeable(items[..i], n);
      }
    }
  }

  lemma NoTables()
    ensures Tables([], map[], map[]) && Kept([]) == []
  {
  }
}
