/** Canonical hashing of JSON. A `Doc` is a JSON document in the order in which its map iterates,
    so it can tell apart what a `Value` cannot: the order of the keys. */
module Canonical {
  import opened Json
  import opened Ordering

  datatype Doc = Leaf(scalar: Value) | List(items: seq<Doc>) | Dict(entries: seq<Entry>)

  datatype Entry = Entry(key: string, value: Doc)

  /** The hex digest of an encoded document. SHA-256 and the byte encoding are uninterpreted. */
  const SHA256_HEX: Doc -> string

  function Keys(entries: seq<Entry>): seq<string> {
    seq(|entries|, i requires 0 <= i < |entries| => entries[i].key)
  }

  predicate DistinctKeys(entries: seq<Entry>) {
    forall i, j | 0 <= i < j < |entries| :: entries[i].key != entries[j].key
  }

  predicate WellFormed(d: Doc) {
    match d
    case Leaf(v) => !v.Array? && !v.Object?
    case List(items) => forall i | 0 <= i < |items| :: WellFormed(items[i])
    case Dict(entries) =>
      DistinctKeys(entries) && forall i | 0 <= i < |entries| :: WellFormed(entries[i].value)
  }

  /** The value a document stands for, forgetting key order at every depth. */
  ghost function Meaning(d: Doc): Value
    requires WellFormed(d)
  {
    match d
    case Leaf(v) => v
    case List(items) =>
      Array(seq(|items|, i requires 0 <= i < |items| && WellFormed(items[i]) => Meaning(items[i])))
    case Dict(entries) =>
      Object(map k | k in Keys(entries) :: Meaning(entries[IndexOf(entries, k)].value))
  }

  ghost function IndexOf(entries: seq<Entry>, key: string): (i: nat)
    requires key in Keys(entries)
    ensures i < |entries| && entries[i].key == key
  {
    var i :| 0 <= i < |entries| && Keys(entries)[i] == key;
    i
  }

  function InsertEntry(e: Entry, entries: seq<Entry>): (r: seq<Entry>)
    ensures forall x :: x in r <==> x == e || x in entries
  {
    if entries == [] then [e]
    else if Before(entries[0].key, e.key) then
      [entries[0]] + InsertEntry(e, entries[1..])
    else [e] + entries
  }

  function SortEntries(entries: seq<Entry>): (r: seq<Entry>)
    ensures forall x :: x in r <==> x in entries
  {
    if entries == [] then []
    else
      InsertEntry(entries[0], SortEntries(entries[1..]))
  }

  function Canonicalize(d: Doc): Doc {
    match d
    case Leaf(_) => d
    case List(items) =>
      List(seq(|items|, i requires 0 <= i < |items| => Canonicalize(items[i])))
    case Dict(entries) =>
      var sorted := SortEntries(entries);
      Dict(seq(|sorted|, i requires 0 <= i < |sorted| =>
        assert sorted[i] in entries;
        Entry(sorted[i].key, Canonicalize(sorted[i].value))))
  }

  function DocHash(d: Doc): string {
    SHA256_HEX(Canonicalize(d))
  }

  lemma {:induction false} InsertEntryKeys(e: Entry, entries: seq<Entry>)
    ensures Keys(InsertEntry(e, entries)) == InsertSorted(e.key, Keys(entries))
  {
    if entries != [] && Before(entries[0].key, e.key) {
      InsertEntryKeys(e, entries[1..]);
      assert Keys(entries)[1..] == Keys(entries[1..]);
      assert Keys(InsertEntry(e, entries))
          == [entries[0].key] + Keys(InsertEntry(e, entries[1..]));
    }
  }

  lemma {:induction false} SortEntriesKeys(entries: seq<Entry>)
    ensures Keys(SortEntries(entries)) == Sort(Keys(entries))
  {
    if entries != [] {
      SortEntriesKeys(entries[1..]);
      InsertEntryKeys(entries[0], SortEntries(entries[1..]));
      assert Keys(entries)[1..] == Keys(entries[1..]);
    }
  }

  lemma {:induction false} SortDistinctIsListing(keys: seq<string>)
    requires forall i, j | 0 <= i < j < |keys| :: keys[i] != keys[j]
    ensures Sort(keys) == SortedListing(Elements(keys))
  {
    SortedListingIsSorted(Elements(keys));
    SortedDistinct(keys);
    SortedListingIsUnique(Sort(keys), SortedListing(Elements(keys)));
  }

  lemma {:induction false} SortedDistinct(keys: seq<string>)
    requires forall i, j | 0 <= i < j < |keys| :: keys[i] != keys[j]
    ensures StrictlySorted(Sort(keys)) && Elements(Sort(keys)) == Elements(keys)
  {
    if keys != [] {
      SortedDistinct(keys[1..]);
      assert keys[0] !in Elements(Sort(keys[1..]));
      InsertKeepsSorted(keys[0], Sort(keys[1..]));
      assert keys == [keys[0]] + keys[1..];
    }
  }

  /** The canonical document of a value: every object's keys in strictly ascending order. */
  function CanonicalDoc(v: Value): Doc {
    match v
    case Array(items) =>
      List(seq(|items|, i requires 0 <= i < |items| => CanonicalDoc(items[i])))
    case Object(fields) =>
      var keys := SortedListing(fields.Keys);
      SortedListingIsSorted(fields.Keys);
      Dict(seq(|keys|, i requires 0 <= i < |keys| =>
        assert keys[i] in Elements(keys);
        Entry(keys[i], CanonicalDoc(fields[keys[i]]))))
    case _ => Leaf(v)
  }

  function CanonicalHash(v: Value): string {
    SHA256_HEX(CanonicalDoc(v))
  }

  lemma {:induction false} CanonicalDocMeans(v: Value)
    ensures WellFormed(CanonicalDoc(v)) && Meaning(CanonicalDoc(v)) == v
  {
    match v
    case Array(items) =>
      forall i | 0 <= i < |items| { CanonicalDocMeans(items[i]); }
    case Object(fields) =>
      forall k | k in fields { CanonicalDocMeans(fields[k]); }
      CanonicalObjectMeans(fields);
    case _ =>
  }

  lemma CanonicalObjectMeans(fields: map<string, Value>)
    requires forall k | k in fields ::
      WellFormed(CanonicalDoc(fields[k])) && Meaning(CanonicalDoc(fields[k])) == fields[k]
    ensures WellFormed(CanonicalDoc(Object(fields)))
    ensures Meaning(CanonicalDoc(Object(fields))) == Object(fields)
  {
    CanonicalObjectKeys(fields);
    EntriesMean(CanonicalDoc(Object(fields)).entries, fields);
  }

  lemma EntriesMean(entries: seq<Entry>, fields: map<string, Value>)
    requires DistinctKeys(entries) && Elements(Keys(entries)) == fields.Keys
    requires forall i | 0 <= i < |entries| ::
      && entries[i].key in fields
      && WellFormed(entries[i].value)
      && Meaning(entries[i].value) == fields[entries[i].key]
    ensures WellFormed(Dict(entries)) && Meaning(Dict(entries)) == Object(fields)
  {
    var means := Meaning(Dict(entries)).fields;
    assert means.Keys == Elements(Keys(entries));
    forall k | k in fields ensures means[k] == fields[k] {
      MeaningAt(entries, IndexOf(entries, k));
    }
    assert means == fields;
  }

  lemma CanonicalObjectKeys(fields: map<string, Value>)
    ensures var entries := CanonicalDoc(Object(fields)).entries;
      && DistinctKeys(entries)
      && Elements(Keys(entries)) == fields.Keys
      && forall i | 0 <= i < |entries| ::
        entries[i].key in fields && entries[i].value == CanonicalDoc(fields[entries[i].key])
  {
    var keys := SortedListing(fields.Keys);
    SortedListingIsSorted(fields.Keys);
    assert Keys(CanonicalDoc(Object(fields)).entries) == keys;
    forall i | 0 <= i < |keys| ensures keys[i] in fields {
      assert keys[i] in Elements(keys);
    }
    forall i, j | 0 <= i < j < |keys| ensures keys[i] != keys[j] {
      BeforeIsStrict(keys[i], keys[j]);
    }
  }

  lemma MeaningAt(entries: seq<Entry>, i: nat)
    requires WellFormed(Dict(entries)) && i < |entries|
    ensures entries[i].key in Meaning(Dict(entries)).fields
    ensures Meaning(Dict(entries)).fields[entries[i].key] == Meaning(entries[i].value)
  {
    assert Keys(entries)[i] == entries[i].key;
    assert IndexOf(entries, entries[i].key) == i;
  }

  /** Canonicalising a document yields the canonical document of its meaning. */
  lemma {:induction false} CanonicalizeIsCanonicalDoc(d: Doc)
    requires WellFormed(d)
    ensures Canonicalize(d) == CanonicalDoc(Meaning(d))
  {
    match d
    case Leaf(_) =>
    case List(items) =>
      forall i | 0 <= i < |items| { CanonicalizeIsCanonicalDoc(items[i]); }
    case Dict(entries) =>
      forall i | 0 <= i < |entries| { CanonicalizeIsCanonicalDoc(entries[i].value); }
      CanonicalizeDict(entries);
  }

  lemma CanonicalizeDict(entries: seq<Entry>)
    requires WellFormed(Dict(entries))
    requires forall i | 0 <= i < |entries| ::
      Canonicalize(entries[i].value) == CanonicalDoc(Meaning(entries[i].value))
    ensures Canonicalize(Dict(entries)) == CanonicalDoc(Meaning(Dict(entries)))
  {
    var sorted := SortEntries(entries);
    var fields := Meaning(Dict(entries)).fields;
    SortedKeysAreListing(entries);
    forall i | 0 <= i < |sorted|
      ensures sorted[i].key in fields
      ensures Canonicalize(sorted[i].value) == CanonicalDoc(fields[sorted[i].key])
    {
      MeaningOf(entries, sorted[i]);
    }
    SameEntries(Canonicalize(Dict(entries)).entries, sorted, fields);
  }

  lemma SortedKeysAreListing(entries: seq<Entry>)
    requires WellFormed(Dict(entries))
    ensures Keys(SortEntries(entries)) == SortedListing(Meaning(Dict(entries)).fields.Keys)
  {
    SortEntriesKeys(entries);
    SortDistinctIsListing(Keys(entries));
    assert Meaning(Dict(entries)).fields.Keys == Elements(Keys(entries));
  }

  lemma MeaningOf(entries: seq<Entry>, e: Entry)
    requires WellFormed(Dict(entries)) && e in entries
    requires forall i | 0 <= i < |entries| ::
      Canonicalize(entries[i].value) == CanonicalDoc(Meaning(entries[i].value))
    ensures var fields := Meaning(Dict(entries)).fields;
      e.key in fields && Canonicalize(e.value) == CanonicalDoc(fields[e.key])
  {
    var j :| 0 <= j < |entries| && entries[j] == e;
    MeaningAt(entries, j);
  }

  lemma SameEntries(left: seq<Entry>, sorted: seq<Entry>, fields: map<string, Value>)
    requires Keys(sorted) == SortedListing(fields.Keys)
    requires forall i | 0 <= i < |sorted| ::
      && sorted[i].key in fields
      && Canonicalize(sorted[i].value) == CanonicalDoc(fields[sorted[i].key])
    requires |left| == |sorted|
    requires forall i | 0 <= i < |left| ::
      left[i] == Entry(sorted[i].key, Canonicalize(sorted[i].value))
    ensures left == CanonicalDoc(Object(fields)).entries
  {
    var right := CanonicalDoc(Object(fields)).entries;
    CanonicalObjectKeys(fields);
    var keys := SortedListing(fields.Keys);
    assert Keys(right) == keys;
    forall i | 0 <= i < |left| ensures left[i] == right[i] {
      assert Keys(right)[i] == Keys(sorted)[i];
    }
  }

  /** `canonicalize` is a normal form: it identifies exactly the documents
      that are equal up to key order at every depth. */
  lemma CanonicalizeIsNormalForm(a: Doc, b: Doc)
    requires WellFormed(a) && WellFormed(b)
    ensures Canonicalize(a) == Canonicalize(b) <==> Meaning(a) == Meaning(b)
  {
    CanonicalizeIsCanonicalDoc(a);
    CanonicalizeIsCanonicalDoc(b);
    CanonicalDocMeans(Meaning(a));
    CanonicalDocMeans(Meaning(b));
  }

  lemma CanonicalizeIsIdempotent(d: Doc)
    requires WellFormed(d)
    ensures WellFormed(Canonicalize(d))
    ensures Meaning(Canonicalize(d)) == Meaning(d)
    ensures Canonicalize(Canonicalize(d)) == Canonicalize(d)
  {
    CanonicalizeIsCanonicalDoc(d);
    CanonicalDocMeans(Meaning(d));
    CanonicalizeIsCanonicalDoc(Canonicalize(d));
  }

  /** With no digest collision between two canonical documents, equal hashes mean equal values. */
  lemma HashIsEquivalence(a: Doc, b: Doc)
    requires WellFormed(a) && WellFormed(b)
    requires SHA256_HEX(Canonicalize(a)) == SHA256_HEX(Canonicalize(b))
      ==> Canonicalize(a) == Canonicalize(b)
    ensures DocHash(a) == DocHash(b) <==> Meaning(a) == Meaning(b)
    ensures DocHash(a) == CanonicalHash(Meaning(a))
  {
    CanonicalizeIsNormalForm(a, b);
    CanonicalizeIsCanonicalDoc(a);
  }

  /** Two values with the same hash have the same canonical document. */
  ghost predicate NoCollision(a: Value, b: Value) {
    CanonicalHash(a) == CanonicalHash(b) ==> CanonicalDoc(a) == CanonicalDoc(b)
  }

  lemma HashIdentifies(a: Value, b: Value)
    requires NoCollision(a, b)
    ensures CanonicalHash(a) == CanonicalHash(b) <==> a == b
  {
    CanonicalDocMeans(a);
    CanonicalDocMeans(b);
  }

  /** The traversal as the program runs it: an object's entries are sorted into a vector
      and then inserted one by one into a fresh map. */
  method CanonicalizeDoc(d: Doc) returns (c: Doc)
    ensures c == Canonicalize(d)
    decreases d
  {
    match d
    case Leaf(_) =>
      c := d;
    case List(items) =>
      var values: seq<Doc> := [];
      for i := 0 to |items|
        invariant |values| == i
        invariant forall k | 0 <= k < i :: values[k] == Canonicalize(items[k])
      {
        var value := CanonicalizeDoc(items[i]);
        values := values + [value];
      }
      c := List(values);
    case Dict(entries) =>
      var sorted := SortEntries(entries);
      var canonical: seq<Entry> := [];
      for i := 0 to |sorted|
        invariant |canonical| == i
        invariant forall k | 0 <= k < i ::
          canonical[k] == Entry(sorted[k].key, Canonicalize(sorted[k].value))
      {
        assert sorted[i] in entries;
        var value := CanonicalizeDoc(sorted[i].value);
        canonical := canonical + [Entry(sorted[i].key, value)];
      }
      c := Dict(canonical);
  }
}
