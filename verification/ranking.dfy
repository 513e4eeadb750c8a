/** Ranking helpers for the statistics endpoints: a grouped count (a Django
    `values(..).annotate(Count(..))`), a stable sort on a descending integer key
    (`order_by('-count')`, Python's `sort(key=.., reverse=True)`) and a slice
    `[:k]`. */
module Ranking {

  /** Entries ranked by their integer key, largest first. */
  predicate SortedDesc<T>(s: seq<(T, int)>) {
    forall i, j :: 0 <= i < j < |s| ==> s[i].1 >= s[j].1
  }

  /** Puts `x` in front of the first entry whose key is smaller, so that it
      stays ahead of the entries with an equal key. */
  function Insert<T>(x: (T, int), s: seq<(T, int)>): (r: seq<(T, int)>)
    requires SortedDesc(s)
    ensures SortedDesc(r)
    ensures multiset(r) == multiset(s) + multiset{x}
  {
    if s == [] || x.1 >= s[0].1 then
      PrependRanks(x, s);
      [x] + s
    else
      var rest := Insert(x, s[1..]);
      HeadRanksFirst(x, s, rest);
      [s[0]] + rest
  }

  /** `x` ranks first in front of a ranked list whose head is not larger. */
  lemma PrependRanks<T>(x: (T, int), s: seq<(T, int)>)
    requires SortedDesc(s) && (s == [] || x.1 >= s[0].1)
    ensures SortedDesc([x] + s)
    ensures multiset([x] + s) == multiset(s) + multiset{x}
  {
    var r := [x] + s;
    forall i, j | 0 <= i < j < |r| ensures r[i].1 >= r[j].1 {
      assert r[j] == s[j - 1];
      if i > 0 {
        assert r[i] == s[i - 1];
      }
    }
  }

  /** The head of a ranked list stays ahead of the rest with `x` inserted,
      when `x`'s key is smaller. */
  lemma HeadRanksFirst<T>(x: (T, int), s: seq<(T, int)>, rest: seq<(T, int)>)
    requires s != [] && SortedDesc(s) && x.1 < s[0].1
    requires SortedDesc(rest) && multiset(rest) == multiset(s[1..]) + multiset{x}
    ensures SortedDesc([s[0]] + rest)
    ensures multiset([s[0]] + rest) == multiset(s) + multiset{x}
  {
    assert s == [s[0]] + s[1..];
    var r := [s[0]] + rest;
    forall i | 0 <= i < |rest| ensures rest[i].1 <= s[0].1 {
      assert rest[i] in multiset(rest);
      if rest[i] != x {
        assert rest[i] in multiset(s[1..]);
        var j :| 0 <= j < |s[1..]| && s[1..][j] == rest[i];
        assert s[j + 1] == rest[i];
      }
    }
    forall i, j | 0 <= i < j < |r| ensures r[i].1 >= r[j].1 {
      if i == 0 {
        assert r[j] == rest[j - 1];
      } else {
        assert r[i] == rest[i - 1] && r[j] == rest[j - 1];
      }
    }
  }

  /** Ranks `s` by key, largest first; entries with equal keys keep their
      relative order. */
  function SortDesc<T>(s: seq<(T, int)>): (r: seq<(T, int)>)
    ensures SortedDesc(r)
    ensures multiset(r) == multiset(s)
    ensures |r| == |s|
  {
    if s == [] then []
    else
      assert s == [s[0]] + s[1..];
      var r := Insert(s[0], SortDesc(s[1..]));
      assert |r| == |multiset(r)|;
      r
  }

  /** The slice `s[:k]`. */
  function Take<T>(s: seq<T>, k: nat): (r: seq<T>)
    ensures |r| <= k && |r| <= |s|
    ensures |r| == if |s| < k then |s| else k
    ensures r <= s
  {
    if |s| <= k then s else s[..k]
  }

  /** A slice of a ranking is still ranked, and holds the leading entries. */
  lemma TakeSortedDesc<T>(s: seq<(T, int)>, k: nat)
    requires SortedDesc(s)
    ensures SortedDesc(Take(s, k))
    ensures forall i, j :: 0 <= i < |Take(s, k)| <= j < |s| ==> Take(s, k)[i].1 >= s[j].1
  {
  }

  /** `x` alone when its key is `v`, otherwise nothing. */
  function Keyed<T>(x: (T, int), v: int): seq<(T, int)> {
    if x.1 == v then [x] else []
  }

  /** The entries whose key is `v`, in their order. */
  function WithKey<T>(s: seq<(T, int)>, v: int): (r: seq<(T, int)>)
    ensures forall i :: 0 <= i < |r| ==> r[i] in s && r[i].1 == v
    ensures forall i :: 0 <= i < |s| && s[i].1 == v ==> s[i] in r
  {
    if s == [] then [] else Keyed(s[0], v) + WithKey(s[1..], v)
  }

  lemma WithKeyCons<T>(x: (T, int), s: seq<(T, int)>, v: int)
    ensures WithKey([x] + s, v) == Keyed(x, v) + WithKey(s, v)
  {
    assert ([x] + s)[1..] == s;
  }

  /** Two parts of which one is empty can be swapped. */
  lemma SwapParts<T>(a: seq<T>, b: seq<T>, t: seq<T>)
    requires a == [] || b == []
    ensures a + (b + t) == b + (a + t)
  {
    if a == [] {
      assert a + (b + t) == b + t && a + t == t;
    } else {
      assert b + t == t && b + (a + t) == a + t;
    }
  }

  /** Inserting `x` puts it ahead of the entries with an equal key and
      keeps the order of those entries. */
  lemma {:induction false} InsertWithKey<T>(x: (T, int), s: seq<(T, int)>, v: int)
    requires SortedDesc(s)
    ensures WithKey(Insert(x, s), v) == Keyed(x, v) + WithKey(s, v)
  {
    if s == [] || x.1 >= s[0].1 {
      WithKeyCons(x, s, v);
    } else {
      InsertWithKey(x, s[1..], v);
      InsertBehind(x, s[0], s[1..], Insert(x, s[1..]), v);
      assert s == [s[0]] + s[1..];
    }
  }

  /** `x` inserted behind a head with a larger key: the entries with key `v`
      come out as when `x` is put in front. */
  lemma InsertBehind<T>(x: (T, int), head: (T, int), tail: seq<(T, int)>, rest: seq<(T, int)>, v: int)
    requires x.1 < head.1
    requires WithKey(rest, v) == Keyed(x, v) + WithKey(tail, v)
    ensures WithKey([head] + rest, v) == Keyed(x, v) + WithKey([head] + tail, v)
  {
    WithKeyCons(head, rest, v);
    WithKeyCons(head, tail, v);
    assert Keyed(x, v) == [] || Keyed(head, v) == [];
    SwapParts(Keyed(head, v), Keyed(x, v), WithKey(tail, v));
  }

  /** The sort is stable: for every key, the entries with that key keep
      their relative order. */
  lemma {:induction false} SortDescStable<T>(s: seq<(T, int)>, v: int)
    ensures WithKey(SortDesc(s), v) == WithKey(s, v)
  {
    if s != [] {
      SortDescStable(s[1..], v);
      InsertWithKey(s[0], SortDesc(s[1..]), v);
    }
  }

  /** `order_by('-key')[:k]`: the `k` entries with the largest keys, largest
      first; every entry left out has a key no larger than any kept one. */
  function TopBy<T>(s: seq<(T, int)>, k: nat): (r: seq<(T, int)>)
    ensures |r| == if |s| < k then |s| else k
    ensures SortedDesc(r)
    ensures multiset(r) <= multiset(s)
    ensures forall x, i :: x in multiset(s) - multiset(r) && 0 <= i < |r| ==> x.1 <= r[i].1
  {
    var sorted := SortDesc(s);
    TakeSortedDesc(sorted, k);
    LeftOutBelow(sorted, Take(sorted, k));
    Take(sorted, k)
  }

  /** Whatever a prefix of a ranking leaves out ranks no higher than what it
      keeps. */
  lemma LeftOutBelow<T>(sorted: seq<(T, int)>, r: seq<(T, int)>)
    requires SortedDesc(sorted) && r <= sorted
    ensures multiset(r) <= multiset(sorted)
    ensures forall x, i :: x in multiset(sorted) - multiset(r) && 0 <= i < |r| ==> x.1 <= r[i].1
  {
    var rest := sorted[|r|..];
    assert sorted == r + rest;
    assert multiset(sorted) - multiset(r) == multiset(rest);
    forall x, i | x in multiset(sorted) - multiset(r) && 0 <= i < |r| ensures x.1 <= r[i].1 {
      assert x in rest;
      var j :| 0 <= j < |rest| && rest[j] == x;
      assert sorted[|r| + j] == x;
    }
  }

  /** Some entry of the tally has key `k`. */
  predicate HasKey<K(==)>(t: seq<(K, int)>, k: K) {
    t != [] && (t[0].0 == k || HasKey(t[1..], k))
  }

  /** No key is listed twice. */
  predicate DistinctKeys<K(==)>(t: seq<(K, int)>) {
    t == [] || (!HasKey(t[1..], t[0].0) && DistinctKeys(t[1..]))
  }

  /** The count a tally records for `k`, 0 when `k` is not listed. */
  function CountOf<K(==)>(t: seq<(K, int)>, k: K): int {
    if t == [] then 0 else if t[0].0 == k then t[0].1 else CountOf(t[1..], k)
  }

  /** Counts one more occurrence of `k`. */
  function Bump<K(==,!new)>(t: seq<(K, int)>, k: K): (r: seq<(K, int)>)
    requires DistinctKeys(t)
    ensures DistinctKeys(r)
    ensures forall x :: HasKey(r, x) <==> HasKey(t, x) || x == k
    ensures CountOf(r, k) == CountOf(t, k) + 1
    ensures forall x | x != k :: CountOf(r, x) == CountOf(t, x)
    ensures |r| <= |t| + 1
    ensures |r| == if HasKey(t, k) then |t| else |t| + 1
  {
    if t == [] then [(k, 1)]
    else if t[0].0 == k then
      assert forall x :: HasKey([(k, t[0].1 + 1)] + t[1..], x) == (x == k || HasKey(t[1..], x));
      [(k, t[0].1 + 1)] + t[1..]
    else
      var rest := Bump(t[1..], k);
      assert ([t[0]] + rest)[1..] == rest;
      [t[0]] + rest
  }

  /** One entry per distinct key, in order of first occurrence, holding the
      number of occurrences of that key. */
  function Tally<K(==,!new)>(keys: seq<K>): (t: seq<(K, int)>)
    ensures DistinctKeys(t)
    ensures forall k :: CountOf(t, k) == multiset(keys)[k]
    ensures forall k :: HasKey(t, k) ==> k in keys
    ensures forall k :: k in keys ==> HasKey(t, k)
    ensures |t| <= |keys|
    ensures |t| == |(set x | x in keys)|
  {
    if keys == [] then []
    else
      var init, last := keys[..|keys| - 1], keys[|keys| - 1];
      assert keys == init + [last];
      var before := Tally(init);
      KeySetSnoc(init, last);
      assert HasKey(before, last) <==> last in (set x | x in init);
      Bump(before, last)
  }

  /** Appending a key adds it to the set of keys. */
  lemma KeySetSnoc<K>(init: seq<K>, last: K)
    ensures (set x | x in init + [last]) == (set x | x in init) + {last}
  {
  }

  /** Every entry of a tally records the count `CountOf` reports for its key. */
  lemma {:induction false} EntryIsCount<K>(t: seq<(K, int)>, e: (K, int))
    requires DistinctKeys(t) && e in t
    ensures CountOf(t, e.0) == e.1
  {
    if t[0] != e {
      EntryIsCount(t[1..], e);
      if t[0].0 == e.0 {
        KeyListed(t[1..], e);
      }
    }
  }

  lemma {:induction false} KeyListed<K>(t: seq<(K, int)>, e: (K, int))
    requires e in t
    ensures HasKey(t, e.0)
  {
    if t[0] != e {
      KeyListed(t[1..], e);
    }
  }

  /** Some entry of a tally with key `k` sits at an index. */
  lemma {:induction false} KeyAt<K>(t: seq<(K, int)>, k: K) returns (i: nat)
    requires HasKey(t, k)
    ensures i < |t| && t[i].0 == k
  {
    if t[0].0 == k {
      i := 0;
    } else {
      var j := KeyAt(t[1..], k);
      i := j + 1;
    }
  }

  lemma {:induction false} CountedKeyListed<K>(t: seq<(K, int)>, k: K)
    requires CountOf(t, k) != 0
    ensures HasKey(t, k)
  {
    if t[0].0 != k {
      CountedKeyListed(t[1..], k);
    }
  }

  /** `values(key).annotate(count=Count(..)).order_by('-count')`: one entry
      per distinct key, holding its number of occurrences, most frequent
      first. */
  function Ranked<K(==,!new)>(keys: seq<K>): (r: seq<(K, int)>)
    ensures |r| <= |keys|
    ensures |r| == |(set x | x in keys)|
    ensures SortedDesc(r)
    ensures forall i :: 0 <= i < |r| ==> r[i].0 in keys && r[i].1 == multiset(keys)[r[i].0]
    ensures forall x :: x in keys ==> exists i :: 0 <= i < |r| && r[i].0 == x
    ensures forall i, j :: 0 <= i < j < |r| ==> r[i].0 != r[j].0
  {
    var t := Tally(keys);
    var r := SortDesc(t);
    forall i | 0 <= i < |r| ensures r[i].0 in keys && r[i].1 == multiset(keys)[r[i].0] {
      assert r[i] in multiset(t);
      EntryIsCount(t, r[i]);
      KeyListed(t, r[i]);
    }
    forall x | x in keys ensures exists i :: 0 <= i < |r| && r[i].0 == x {
      CountedKeyListed(t, x);
      var j := KeyAt(t, x);
      assert t[j] in multiset(r);
    }
    NoRepeatedKey(keys, r);
    r
  }

  /** The keys of the entries, in order. */
  function KeysOf<K>(r: seq<(K, int)>): (ks: seq<K>)
    ensures |ks| == |r| && forall i :: 0 <= i < |r| ==> ks[i] == r[i].0
  {
    if r == [] then [] else [r[0].0] + KeysOf(r[1..])
  }

  /** Entries that name exactly the distinct keys of `keys`, one entry per
      distinct key, cannot name a key twice. */
  lemma NoRepeatedKey<K>(keys: seq<K>, r: seq<(K, int)>)
    requires |r| == |(set x | x in keys)|
    requires forall i :: 0 <= i < |r| ==> r[i].0 in keys
    requires forall x :: x in keys ==> exists i :: 0 <= i < |r| && r[i].0 == x
    ensures forall i, j :: 0 <= i < j < |r| ==> r[i].0 != r[j].0
  {
    var ks := KeysOf(r);
    assert (set x | x in ks) == (set x | x in keys) by {
      forall x | x in keys ensures x in ks {
        var i :| 0 <= i < |r| && r[i].0 == x;
        assert ks[i] == x;
      }
    }
    forall i, j | 0 <= i < j < |r| ensures r[i].0 != r[j].0 {
      if r[i].0 == r[j].0 {
        DuplicateShrinks(ks, i, j);
      }
    }
  }

  /** A sequence with a repeated element has fewer distinct elements than
      its length. */
  lemma DuplicateShrinks<K>(s: seq<K>, i: nat, j: nat)
    requires i < j < |s| && s[i] == s[j]
    ensures |(set x | x in s)| < |s|
  {
    var t := s[..j] + s[j + 1..];
    assert (set x | x in s) == (set x | x in t) by {
      forall x | x in s ensures x in t {
        var k :| 0 <= k < |s| && s[k] == x;
        if k == j {
          assert t[i] == x;
        } else if k < j {
          assert t[k] == x;
        } else {
          assert t[k - 1] == x;
        }
      }
    }
    DistinctBound(t);
  }

  /** `r` lists the `k` most frequent keys of `keys` (all of them when there
      are fewer distinct keys), each with its number of occurrences, most
      frequent first, leaving out no key more frequent than a listed one. */
  predicate TopOf<K(==)>(keys: seq<K>, k: nat, r: seq<(K, int)>) {
    |r| == (if |(set x | x in keys)| < k then |(set x | x in keys)| else k)
    && SortedDesc(r)
    && (forall i :: 0 <= i < |r| ==> r[i].0 in keys && r[i].1 == multiset(keys)[r[i].0])
    && (forall x, i :: x in keys && 0 <= i < |r| && r[i].1 < multiset(keys)[x] ==>
          exists j :: 0 <= j < |r| && r[j].0 == x)
    && (forall i, j :: 0 <= i < j < |r| ==> r[i].0 != r[j].0)
  }

  /** The `k` most frequent keys with their counts, most frequent first
      (`..order_by('-count')[:k]`); a key more frequent than a listed one is
      listed too. */
  function TopCounts<K(==,!new)>(keys: seq<K>, k: nat): (r: seq<(K, int)>)
    ensures |r| <= k && |r| <= |keys|
    ensures |r| == if |(set x | x in keys)| < k then |(set x | x in keys)| else k
    ensures SortedDesc(r)
    ensures forall i :: 0 <= i < |r| ==> r[i].0 in keys && r[i].1 == multiset(keys)[r[i].0]
    ensures forall x, i :: x in keys && 0 <= i < |r| && r[i].1 < multiset(keys)[x] ==>
      exists j :: 0 <= j < |r| && r[j].0 == x
    ensures forall i, j :: 0 <= i < j < |r| ==> r[i].0 != r[j].0
  {
    var ranked := Ranked(keys);
    var r := Take(ranked, k);
    RankedPrefix(keys, ranked, r);
    r
  }

  /** A prefix of the ranking keeps its order, its true counts and its
      distinct keys, and lists every key more frequent than one it lists. */
  lemma RankedPrefix<K(!new)>(keys: seq<K>, ranked: seq<(K, int)>, r: seq<(K, int)>)
    requires ranked == Ranked(keys) && r <= ranked
    ensures SortedDesc(r)
    ensures forall i :: 0 <= i < |r| ==> r[i].0 in keys && r[i].1 == multiset(keys)[r[i].0]
    ensures forall x, i :: x in keys && 0 <= i < |r| && r[i].1 < multiset(keys)[x] ==>
      exists j :: 0 <= j < |r| && r[j].0 == x
    ensures forall i, j :: 0 <= i < j < |r| ==> r[i].0 != r[j].0
  {
    assert forall i :: 0 <= i < |r| ==> r[i] == ranked[i];
    LeadersListed(keys, ranked, |r|);
  }

  /** `TopCounts` meets `TopOf`. */
  lemma TopCountsTop<K(!new)>(keys: seq<K>, k: nat)
    ensures TopOf(keys, k, TopCounts(keys, k))
  {
  }

  lemma LeadersListed<K(!new)>(keys: seq<K>, ranked: seq<(K, int)>, n: nat)
    requires ranked == Ranked(keys) && n <= |ranked|
    ensures forall x, i :: x in keys && 0 <= i < n && ranked[i].1 < multiset(keys)[x] ==>
      exists j :: 0 <= j < n && ranked[j].0 == x
  {
    forall x, i | x in keys && 0 <= i < n && ranked[i].1 < multiset(keys)[x]
      ensures exists j :: 0 <= j < n && ranked[j].0 == x
    {
      var m :| 0 <= m < |ranked| && ranked[m].0 == x;
      Outranks(ranked, n, i, m);
    }
  }

  /** In a ranking, an entry with a larger key than the one at `i` comes
      before it, so within any prefix that holds `i`. */
  lemma Outranks<T>(ranked: seq<(T, int)>, n: nat, i: nat, m: nat)
    requires SortedDesc(ranked) && i < n <= |ranked| && m < |ranked|
    requires ranked[i].1 < ranked[m].1
    ensures m < n
  {
  }

  /** There are no more distinct keys than keys. */
  lemma {:induction false} DistinctBound<K>(keys: seq<K>)
    ensures |(set x | x in keys)| <= |keys|
  {
    if keys != [] {
      DistinctBound(keys[1..]);
      assert (set x | x in keys) == (set x | x in keys[1..]) + {keys[0]};
    }
  }
}
