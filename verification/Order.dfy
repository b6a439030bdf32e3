/** Go's order on strings, and sort.Strings. Dafny's own < on strings is the prefix relation. */
module Order {

  predicate Less(a: string, b: string) {
    if b == [] then false
    else if a == [] then true
    else a[0] < b[0] || (a[0] == b[0] && Less(a[1..], b[1..]))
  }

  predicate Leq(a: string, b: string) {
    !Less(b, a)
  }

  lemma {:induction false} LessIsTotal(a: string, b: string)
    ensures Less(a, b) || a == b || Less(b, a)
    ensures !(Less(a, b) && Less(b, a))
    ensures !Less(a, a)
  {
    if a != [] {
      LessIsTotal(a[1..], a[1..]);
      if b != [] {
        LessIsTotal(a[1..], b[1..]);
        assert a == [a[0]] + a[1..] && b == [b[0]] + b[1..];
      }
    }
  }

  /** The texts agree up to k, and there a ends, or has the smaller character. */
  predicate DifferFirstAt(a: string, b: string, k: nat) {
    k <= |a| && k < |b| && a[..k] == b[..k] && (k == |a| || a[k] < b[k])
  }

  /** It is the lexicographic order: the first place where the texts differ decides. */
  lemma {:induction false} LessIsLexicographic(a: string, b: string)
    ensures Less(a, b) <==> exists k: nat :: DifferFirstAt(a, b, k)
  {
    if b != [] {
      if a == [] || a[0] < b[0] {
        assert DifferFirstAt(a, b, 0);
      } else {
        LessIsLexicographic(a[1..], b[1..]);
        if k: nat :| DifferFirstAt(a, b, k) {
          assert a[..k][0] == a[0] && b[..k][0] == b[0];
          assert a[1..][..k - 1] == a[..k][1..] && b[1..][..k - 1] == b[..k][1..];
          assert DifferFirstAt(a[1..], b[1..], k - 1);
        }
        if k: nat :| a[0] == b[0] && DifferFirstAt(a[1..], b[1..], k) {
          assert a[..k + 1] == [a[0]] + a[1..][..k] && b[..k + 1] == [b[0]] + b[1..][..k];
          assert DifferFirstAt(a, b, k + 1);
        }
      }
    }
  }

  lemma {:induction false} LessIsTransitive(a: string, b: string, c: string)
    requires Less(a, b) && Less(b, c)
    ensures Less(a, c)
  {
    if a != [] {
      if a[0] == b[0] == c[0] {
        LessIsTransitive(a[1..], b[1..], c[1..]);
      }
    }
  }

  lemma LeqIsTransitive(a: string, b: string, c: string)
    requires Leq(a, b) && Leq(b, c)
    ensures Leq(a, c)
  {
    LessIsTotal(a, b);
    LessIsTotal(b, c);
    LessIsTotal(a, c);
    if Less(c, a) {
      if a != b {
        LessIsTransitive(c, a, b);
      }
    }
  }

  predicate Sorted(s: seq<string>) {
    forall i, j :: 0 <= i < j < |s| ==> Leq(s[i], s[j])
  }

  predicate Distinct(s: seq<string>) {
    forall i, j :: 0 <= i < j < |s| ==> s[i] != s[j]
  }

  predicate StrictlySorted(s: seq<string>) {
    forall i, j :: 0 <= i < j < |s| ==> Less(s[i], s[j])
  }

  /** The position at which val enters the sorted sequence s: after everything below it. */
  function Position(s: seq<string>, val: string): (p: nat)
    ensures p <= |s|
    ensures forall k :: 0 <= k < p ==> Less(s[k], val)
    ensures p < |s| ==> Leq(val, s[p])
  {
    if s == [] || !Less(s[0], val) then 0 else 1 + Position(s[1..], val)
  }

  function Insert(s: seq<string>, val: string): seq<string> {
    var p := Position(s, val);
    s[..p] + [val] + s[p..]
  }

  lemma InsertAdds(s: seq<string>, val: string)
    ensures multiset(Insert(s, val)) == multiset(s) + multiset{val}
  {
    var p := Position(s, val);
    assert s == s[..p] + s[p..];
  }

  lemma InsertKeepsSorted(s: seq<string>, val: string)
    requires Sorted(s)
    ensures Sorted(Insert(s, val))
  {
    var p, r := Position(s, val), Insert(s, val);
    forall k | p <= k < |s| ensures Leq(val, s[k]) {
      if p < k {
        LeqIsTransitive(val, s[p], s[k]);
      }
    }
    forall i, j | 0 <= i < j < |r| ensures Leq(r[i], r[j]) {
      if j == p {
        LessIsTotal(s[i], val);
      }
    }
  }

  /** sort.Strings, by its result. */
  function Sort(s: seq<string>): (r: seq<string>)
    ensures |r| == |s|
  {
    if s == [] then [] else Insert(Sort(s[1..]), s[0])
  }

  lemma {:induction false} SortSorts(s: seq<string>)
    ensures Sorted(Sort(s)) && multiset(Sort(s)) == multiset(s)
  {
    if s != [] {
      SortSorts(s[1..]);
      InsertKeepsSorted(Sort(s[1..]), s[0]);
      InsertAdds(Sort(s[1..]), s[0]);
      assert s == [s[0]] + s[1..];
    }
  }

  lemma SortKeepsElements(s: seq<string>)
    ensures forall x :: x in Sort(s) <==> x in s
  {
    SortSorts(s);
    forall x ensures x in Sort(s) <==> x in s {
      assert x in multiset(Sort(s)) <==> x in multiset(s);
    }
  }

  lemma Tail(s: seq<string>)
    requires s != []
    ensures multiset(s[1..]) == multiset(s) - multiset{s[0]}
  {
    assert s == [s[0]] + s[1..];
  }

  lemma FirstIsLeast(s: seq<string>, x: string)
    requires Sorted(s) && x in multiset(s)
    ensures s != [] && Leq(s[0], x)
  {
    var i :| 0 <= i < |s| && s[i] == x;
    LessIsTotal(x, x);
  }

  lemma SameFirst(a: seq<string>, b: seq<string>)
    requires Sorted(a) && Sorted(b) && multiset(a) == multiset(b) && a != []
    ensures b != [] && a[0] == b[0]
  {
    assert a[0] in multiset(a);
    FirstIsLeast(b, a[0]);
    assert b[0] in multiset(b);
    FirstIsLeast(a, b[0]);
    LessIsTotal(a[0], b[0]);
  }

  /** A multiset of strings has one sorted listing, so no result depends on how the keys were collected. */
  lemma {:induction false} SortedListingIsUnique(a: seq<string>, b: seq<string>)
    requires Sorted(a) && Sorted(b) && multiset(a) == multiset(b)
    ensures a == b
  {
    if a == [] {
      assert |multiset(b)| == 0;
    } else {
      SameFirst(a, b);
      Tail(a);
      Tail(b);
      SortedListingIsUnique(a[1..], b[1..]);
      assert a == [a[0]] + a[1..] && b == [b[0]] + b[1..];
    }
  }

  /** Keys of a Go map, sorted: what every generator in the repository iterates over. */
  ghost predicate ListsKeys(r: seq<string>, keys: set<string>) {
    StrictlySorted(r) && (forall k :: k in keys <==> k in r)
  }

  lemma SetListing(r: seq<string>, keys: set<string>)
    requires Sorted(r) && multiset(r) == multiset(keys)
    ensures ListsKeys(r, keys)
  {
    forall i, j | 0 <= i < j < |r| ensures Less(r[i], r[j]) {
      assert multiset(keys)[r[i]] <= 1;
      assert r == r[..j] + [r[j]] + r[j + 1..];
      assert r[i] in r[..j];
      LessIsTotal(r[i], r[j]);
    }
    forall k ensures k in keys <==> k in r {
      assert k in multiset(r) <==> k in r;
    }
  }

  lemma {:induction false} ListingIsUnique(a: seq<string>, b: seq<string>, keys: set<string>)
    requires ListsKeys(a, keys) && ListsKeys(b, keys)
    ensures a == b
  {
    assert b != [] ==> b[0] in keys;
    if a != [] {
      assert a[0] in keys && a[0] in b && b[0] in keys && b[0] in a;
      LessIsTotal(a[0], b[0]);
      assert a[0] == b[0];
      forall k ensures k in keys - {a[0]} <==> k in a[1..] {
        assert a == [a[0]] + a[1..];
        LessIsTotal(a[0], a[0]);
      }
      forall k ensures k in keys - {a[0]} <==> k in b[1..] {
        assert b == [b[0]] + b[1..];
        LessIsTotal(b[0], b[0]);
      }
      ListingIsUnique(a[1..], b[1..], keys - {a[0]});
      assert a == [a[0]] + a[1..] && b == [b[0]] + b[1..];
    }
  }

  lemma InsertExtendsListing(s: seq<string>, val: string, keys: set<string>)
    requires ListsKeys(s, keys) && val !in keys
    ensures ListsKeys(Insert(s, val), keys + {val})
  {
    var p, r := Position(s, val), Insert(s, val);
    forall k | p <= k < |s| ensures Less(val, s[k]) {
      LessIsTotal(val, s[p]);
      if p < k && val != s[p] {
        LessIsTransitive(val, s[p], s[k]);
      }
    }
  }

  /** The sorted listing of a set of keys. */
  ghost function Listing(keys: set<string>): (r: seq<string>)
    ensures ListsKeys(r, keys)
  {
    if keys == {} then []
    else
      var k :| k in keys;
      InsertExtendsListing(Listing(keys - {k}), k, keys - {k});
      assert keys == keys - {k} + {k};
      Insert(Listing(keys - {k}), k)
  }

  lemma {:induction false} DistinctOnce(s: seq<string>, keys: set<string>)
    requires Distinct(s) && forall k :: k in s <==> k in keys
    ensures multiset(s) == multiset(keys)
  {
    if s == [] {
      assert keys == {};
    } else {
      assert s == [s[0]] + s[1..];
      DistinctOnce(s[1..], keys - {s[0]});
    }
  }

  /** Sorting keys collected in any order gives that listing. */
  lemma SortGivesListing(collected: seq<string>, keys: set<string>)
    requires Distinct(collected) && forall k :: k in collected <==> k in keys
    ensures Sort(collected) == Listing(keys)
  {
    DistinctOnce(collected, keys);
    SortSorts(collected);
    SetListing(Sort(collected), keys);
    ListingIsUnique(Sort(collected), Listing(keys), keys);
  }

  /** The keys of a map in some order, as ranging over it collects them, then sorted. */
  method SortedKeys(all: set<string>) returns (keys: seq<string>)
    ensures keys == Listing(all)
  {
    keys := [];
    var left := all;
    while left != {}
      invariant left <= all
      invariant Distinct(keys) && forall k :: k in keys <==> k in all - left
    {
      var k :| k in left;
      assert k !in keys;
      keys, left := keys + [k], left - {k};
    }
    SortGivesListing(keys, all);
    keys := Sort(keys);
  }
}
