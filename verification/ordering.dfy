/** The byte order on strings, which on Unicode text is the order of code points,
    and the sorting the program does with it. */
module Ordering {
  predicate Before(a: string, b: string) {
    if b == "" then false
    else if a == "" then true
    else if a[0] == b[0] then Before(a[1..], b[1..])
    else a[0] < b[0]
  }

  /** The two part at position `k`: there `a` ends, or has the smaller character. */
  predicate PartAt(a: string, b: string, k: nat) {
    && k <= |a|
    && k < |b|
    && a[..k] == b[..k]
    && (k < |a| ==> a[k] < b[k])
  }

  lemma {:induction false} BeforeMeans(a: string, b: string)
    ensures Before(a, b) <==> exists k: nat :: PartAt(a, b, k)
  {
    if a == "" || b == "" || a[0] != b[0] {
      assert forall k: nat | PartAt(a, b, k) && k > 0 :: a[..k][0] == b[..k][0];
      if a == "" && b != "" {
        assert PartAt(a, b, 0);
      } else if a != "" && b != "" && a[0] < b[0] {
        assert PartAt(a, b, 0);
      }
    } else {
      BeforeMeans(a[1..], b[1..]);
      forall k: nat ensures PartAt(a, b, k + 1) <==> PartAt(a[1..], b[1..], k) {
        if k < |a| && k + 1 < |b| {
          assert a[..k + 1] == [a[0]] + a[1..][..k];
          assert b[..k + 1] == [b[0]] + b[1..][..k];
        }
      }
      assert !PartAt(a, b, 0);
      if exists k: nat :: PartAt(a, b, k) {
        var k: nat :| PartAt(a, b, k);
        assert PartAt(a, b, (k - 1) + 1) && PartAt(a[1..], b[1..], k - 1);
      }
      if exists k: nat :: PartAt(a[1..], b[1..], k) {
        var k: nat :| PartAt(a[1..], b[1..], k);
        assert PartAt(a, b, k + 1);
      }
    }
  }

  lemma {:induction false} BeforeIsTotal(a: string, b: string)
    ensures a == b || Before(a, b) || Before(b, a)
  {
    if a != "" && b != "" && a[0] == b[0] {
      BeforeIsTotal(a[1..], b[1..]);
      assert a == [a[0]] + a[1..] && b == [b[0]] + b[1..];
    }
  }

  lemma {:induction false} BeforeIsTransitive(a: string, b: string, c: string)
    requires Before(a, b) && Before(b, c)
    ensures Before(a, c)
  {
    if a != "" && a[0] == b[0] == c[0] {
      BeforeIsTransitive(a[1..], b[1..], c[1..]);
    }
  }

  lemma {:induction false} BeforeIsStrict(a: string, b: string)
    requires Before(a, b)
    ensures !Before(b, a) && a != b
  {
    if a != "" && a[0] == b[0] {
      BeforeIsStrict(a[1..], b[1..]);
    }
  }

  predicate StrictlySorted(keys: seq<string>) {
    forall i, j | 0 <= i < j < |keys| :: Before(keys[i], keys[j])
  }

  function Elements(keys: seq<string>): set<string> {
    set k | k in keys
  }

  /** A finite set has at most one strictly sorted listing. */
  lemma {:induction false} SortedListingIsUnique(a: seq<string>, b: seq<string>)
    requires StrictlySorted(a) && StrictlySorted(b) && Elements(a) == Elements(b)
    ensures a == b
  {
    assert a != [] ==> a[0] in Elements(b);
    assert b != [] ==> b[0] in Elements(a);
    if a != [] && b != [] {
      if a[0] != b[0] {
        var i :| 0 <= i < |b| && b[i] == a[0];
        var j :| 0 <= j < |a| && a[j] == b[0];
        BeforeIsStrict(a[0], b[0]);
        assert false;
      }
      SameTail(a, b);
      SortedListingIsUnique(a[1..], b[1..]);
      assert a == [a[0]] + a[1..] && b == [b[0]] + b[1..];
    }
  }

  lemma SameTail(a: seq<string>, b: seq<string>)
    requires StrictlySorted(a) && StrictlySorted(b) && Elements(a) == Elements(b)
    requires a != [] && b != [] && a[0] == b[0]
    ensures Elements(a[1..]) == Elements(b[1..])
  {
    TailElements(a);
    TailElements(b);
  }

  lemma TailElements(a: seq<string>)
    requires StrictlySorted(a) && a != []
    ensures Elements(a[1..]) == Elements(a) - {a[0]}
  {
    forall k
      ensures k in Elements(a[1..]) <==> k in Elements(a) - {a[0]}
    {
      if k in a[1..] {
        var i :| 0 <= i < |a| - 1 && a[1..][i] == k;
        assert a[i + 1] == k;
        BeforeIsStrict(a[0], a[i + 1]);
      }
      if k in a && k != a[0] {
        var i :| 0 <= i < |a| && a[i] == k;
        assert a[1..][i - 1] == k;
      }
    }
  }

  function InsertSorted(k: string, keys: seq<string>): seq<string> {
    if keys == [] then [k]
    else if Before(keys[0], k) then [keys[0]] + InsertSorted(k, keys[1..])
    else [k] + keys
  }

  predicate AllAfter(k: string, keys: seq<string>) {
    forall other | other in keys :: Before(k, other)
  }

  lemma PrependKeepsSorted(k: string, keys: seq<string>)
    requires StrictlySorted(keys) && AllAfter(k, keys)
    ensures StrictlySorted([k] + keys)
    ensures Elements([k] + keys) == {k} + Elements(keys)
  {
  }

  lemma {:induction false} InsertKeepsSorted(k: string, keys: seq<string>)
    requires StrictlySorted(keys) && k !in keys
    ensures StrictlySorted(InsertSorted(k, keys))
    ensures Elements(InsertSorted(k, keys)) == Elements(keys) + {k}
  {
    if keys == [] {
    } else if Before(keys[0], k) {
      var rest := InsertSorted(k, keys[1..]);
      InsertKeepsSorted(k, keys[1..]);
      assert AllAfter(keys[0], rest) by {
        assert forall other | other in rest :: other in Elements(rest);
      }
      PrependKeepsSorted(keys[0], rest);
      PrependKeepsSorted(keys[0], keys[1..]);
      assert keys == [keys[0]] + keys[1..];
    } else {
      BeforeIsTotal(keys[0], k);
      forall other | other in keys
        ensures Before(k, other)
      {
        if other != keys[0] { BeforeIsTransitive(k, keys[0], other); }
      }
      PrependKeepsSorted(k, keys);
    }
  }

  predicate Least(k: string, keys: set<string>) {
    k in keys && forall other | other in keys :: other == k || Before(k, other)
  }

  lemma {:induction false} LeastExists(keys: set<string>)
    requires keys != {}
    ensures exists k :: Least(k, keys)
    ensures forall a, b | Least(a, keys) && Least(b, keys) :: a == b
  {
    forall a, b | Least(a, keys) && Least(b, keys) ensures a == b {
      if a != b { BeforeIsStrict(a, b); }
    }
    var some :| some in keys;
    var rest := keys - {some};
    if rest == {} {
      assert keys == {some};
      assert Least(some, keys);
    } else {
      LeastExists(rest);
      var k :| Least(k, rest);
      BeforeIsTotal(some, k);
      if Before(some, k) {
        forall other | other in rest && other != k ensures Before(some, other) {
          BeforeIsTransitive(some, k, other);
        }
        assert Least(some, keys);
      } else {
        assert Least(k, keys);
      }
    }
  }

  /** The strictly sorted listing of a set. */
  function SortedListing(keys: set<string>): seq<string> {
    if keys == {} then []
    else
      LeastExists(keys);
      var k :| Least(k, keys);
      [k] + SortedListing(keys - {k})
  }

  lemma {:induction false} SortedListingIsSorted(keys: set<string>)
    ensures StrictlySorted(SortedListing(keys))
    ensures Elements(SortedListing(keys)) == keys
  {
    if keys != {} {
      var k, rest := SortedListing(keys)[0], SortedListing(keys)[1..];
      LeastExists(keys);
      assert Least(k, keys);
      SortedListingIsSorted(keys - {k});
      assert AllAfter(k, rest) by {
        assert forall other | other in rest :: other in Elements(rest);
      }
      PrependKeepsSorted(k, rest);
    }
  }

  /** `sort_unstable` on strings; equal strings are indistinguishable, so any sort will do. */
  function Sort(texts: seq<string>): seq<string> {
    if texts == [] then [] else InsertSorted(texts[0], Sort(texts[1..]))
  }

  /** `dedup`: drops every element equal to its predecessor. */
  function Dedup(texts: seq<string>): seq<string> {
    if |texts| <= 1 then texts
    else if texts[0] == texts[1] then Dedup(texts[1..])
    else [texts[0]] + Dedup(texts[1..])
  }

  predicate WeaklySorted(texts: seq<string>) {
    forall i, j | 0 <= i < j < |texts| :: texts[i] == texts[j] || Before(texts[i], texts[j])
  }

  predicate NoneBefore(k: string, texts: seq<string>) {
    forall t | t in texts :: k == t || Before(k, t)
  }

  lemma PrependKeepsWeaklySorted(k: string, texts: seq<string>)
    requires WeaklySorted(texts) && NoneBefore(k, texts)
    ensures WeaklySorted([k] + texts)
    ensures Elements([k] + texts) == {k} + Elements(texts)
  {
    var all := [k] + texts;
    forall i, j | 0 <= i < j < |all|
      ensures all[i] == all[j] || Before(all[i], all[j])
    {
      assert all[j] == texts[j - 1];
      if i > 0 { assert all[i] == texts[i - 1]; }
    }
  }

  lemma HeadIsLeast(texts: seq<string>)
    requires WeaklySorted(texts) && texts != []
    ensures NoneBefore(texts[0], texts[1..])
  {
  }

  lemma {:induction false} InsertKeepsWeaklySorted(k: string, texts: seq<string>)
    requires WeaklySorted(texts)
    ensures WeaklySorted(InsertSorted(k, texts))
    ensures Elements(InsertSorted(k, texts)) == Elements(texts) + {k}
  {
    if texts == [] {
    } else if Before(texts[0], k) {
      var rest := InsertSorted(k, texts[1..]);
      InsertKeepsWeaklySorted(k, texts[1..]);
      HeadIsLeast(texts);
      assert NoneBefore(texts[0], rest) by {
        assert forall t | t in rest :: t in Elements(rest);
      }
      PrependKeepsWeaklySorted(texts[0], rest);
      PrependKeepsWeaklySorted(texts[0], texts[1..]);
      assert texts == [texts[0]] + texts[1..];
    } else {
      BeforeIsTotal(texts[0], k);
      forall t | t in texts
        ensures k == t || Before(k, t)
      {
        if k != texts[0] && t != texts[0] {
          BeforeIsTransitive(k, texts[0], t);
        }
      }
      PrependKeepsWeaklySorted(k, texts);
    }
  }

  lemma {:induction false} SortIsWeaklySorted(texts: seq<string>)
    ensures WeaklySorted(Sort(texts))
    ensures Elements(Sort(texts)) == Elements(texts)
  {
    if texts != [] {
      SortIsWeaklySorted(texts[1..]);
      InsertKeepsWeaklySorted(texts[0], Sort(texts[1..]));
      assert texts == [texts[0]] + texts[1..];
    }
  }

  lemma {:induction false} DedupIsStrictlySorted(texts: seq<string>)
    requires WeaklySorted(texts)
    ensures StrictlySorted(Dedup(texts))
    ensures Elements(Dedup(texts)) == Elements(texts)
    ensures texts != [] ==> Dedup(texts) != [] && Dedup(texts)[0] == texts[0]
  {
    if |texts| > 1 {
      DedupIsStrictlySorted(texts[1..]);
      var rest := Dedup(texts[1..]);
      assert texts == [texts[0]] + texts[1..];
      if texts[0] != texts[1] {
        assert Elements([texts[0]] + rest) == {texts[0]} + Elements(rest);
        forall j | 0 <= j < |rest|
          ensures Before(texts[0], rest[j])
        {
          if j > 0 { BeforeIsTransitive(texts[0], rest[0], rest[j]); }
        }
      }
    }
  }

  /** Sorting and deduplicating forgets everything but the set. */
  lemma DedupSortIsListing(texts: seq<string>)
    ensures Dedup(Sort(texts)) == SortedListing(Elements(texts))
  {
    SortIsWeaklySorted(texts);
    DedupIsStrictlySorted(Sort(texts));
    SortedListingIsSorted(Elements(texts));
    SortedListingIsUnique(Dedup(Sort(texts)), SortedListing(Elements(texts)));
  }
}
