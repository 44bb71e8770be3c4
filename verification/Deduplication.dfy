/** Deduplicating items by a key, around a deduplicator that works on keys. */
module Deduplication {
  import opened Wrappers

  /** What the deduplicator answers: the keys it had not recorded, and those it had. */
  datatype Split = Split(unseen: seq<string>, processed: seq<string>)

  ghost predicate Distinct(keys: seq<string>) {
    forall i, j :: 0 <= i < j < |keys| ==> keys[i] != keys[j]
  }

  /** The answer sorts every key of a duplicate-free list into exactly one of the two parts. */
  ghost predicate Partitions(deduplicate: seq<string> -> Split) {
    forall keys :: Distinct(keys) ==>
      multiset(deduplicate(keys).unseen) + multiset(deduplicate(keys).processed) == multiset(keys)
  }

  /** Item `i` is the last one with key `k`. */
  ghost predicate IsLastWithKey<T>(items: seq<T>, keyOf: T -> string, i: nat, k: string) {
    i < |items| && keyOf(items[i]) == k && forall j :: i < j < |items| ==> keyOf(items[j]) != k
  }

  ghost predicate HasKey<T>(items: seq<T>, keyOf: T -> string, k: string) {
    exists i :: 0 <= i < |items| && keyOf(items[i]) == k
  }

  /** `x` is the last item with key `k`. */
  ghost predicate LastWithKey<T>(items: seq<T>, keyOf: T -> string, k: string, x: T) {
    exists i: nat :: IsLastWithKey(items, keyOf, i, k) && x == items[i]
  }

  /** `keys` lists each key of an item once. */
  ghost predicate KeysOf<T>(items: seq<T>, keyOf: T -> string, keys: seq<string>) {
    Distinct(keys) && forall k :: k in keys <==> HasKey(items, keyOf, k)
  }

  /** Each member of `out` is the last item with the key of the same position in `keys`. */
  ghost predicate LastItems<T>(items: seq<T>, keyOf: T -> string, keys: seq<string>, out: seq<T>) {
    && |out| == |keys|
    && forall n :: 0 <= n < |keys| ==> LastWithKey(items, keyOf, keys[n], out[n])
  }

  /** How many members of `out` have key `k`. */
  ghost function WithKey<T>(out: seq<T>, keyOf: T -> string, k: string): nat {
    Count(out, (x: T) => keyOf(x) == k)
  }

  /** Lists the keys of the lookup in some order. */
  method KeyList(lookup: map<string, nat>) returns (keys: seq<string>)
    ensures Distinct(keys) && forall k :: k in keys <==> k in lookup
  {
    keys := [];
    var todo := lookup.Keys;
    while todo != {}
      invariant todo <= lookup.Keys && Distinct(keys)
      invariant forall k :: k in keys <==> k in lookup && k !in todo
    {
      var k :| k in todo;
      keys := keys + [k];
      todo := todo - {k};
    }
  }

  method Select<T>(items: seq<T>, keyOf: T -> string, lookup: map<string, nat>, keys: seq<string>) returns (out: seq<T>)
    requires forall k :: k in lookup ==> IsLastWithKey(items, keyOf, lookup[k], k)
    requires forall k :: k in keys ==> k in lookup
    ensures LastItems(items, keyOf, keys, out)
  {
    out := [];
    for n := 0 to |keys|
      invariant LastItems(items, keyOf, keys[..n], out)
    {
      assert keys[n] in keys && IsLastWithKey(items, keyOf, lookup[keys[n]], keys[n]);
      out := out + [items[lookup[keys[n]]]];
    }
    assert keys[..|keys|] == keys;
  }

  /**
   * The keys of the items are asked for once each. Every answer is the last item with its key,
   * on the side the deduplicator put the key, and every key of an item has exactly one answer.
   */
  method CheckProcessedItemsAndRecord<T>(items: seq<T>, keyOf: T -> string, deduplicate: seq<string> -> Split)
    returns (unseen: seq<T>, processed: seq<T>)
    requires Partitions(deduplicate)
    ensures exists keys ::
              && KeysOf(items, keyOf, keys)
              && LastItems(items, keyOf, deduplicate(keys).unseen, unseen)
              && LastItems(items, keyOf, deduplicate(keys).processed, processed)
    ensures forall x :: x in unseen + processed ==> LastWithKey(items, keyOf, keyOf(x), x)
    ensures forall k :: WithKey(unseen + processed, keyOf, k) == One(HasKey(items, keyOf, k))
  {
    var itemLookup: map<string, nat> := map[];
    for index := 0 to |items|
      invariant forall k :: k in itemLookup ==> IsLastWithKey(items[..index], keyOf, itemLookup[k], k)
      invariant forall i :: 0 <= i < index ==> keyOf(items[i]) in itemLookup
    {
      itemLookup := itemLookup[keyOf(items[index]) := index];
    }
    assert items[..|items|] == items;
    var keys := KeyList(itemLookup);
    assert KeysOf(items, keyOf, keys) by {
      assert forall k :: k in itemLookup <==> HasKey(items, keyOf, k);
    }
    var checked := deduplicate(keys);
    assert multiset(checked.unseen) + multiset(checked.processed) == multiset(keys);
    assert forall k :: k in checked.unseen ==> k in multiset(keys) by {
      assert forall k :: k in checked.unseen ==> k in multiset(checked.unseen);
    }
    assert forall k :: k in checked.processed ==> k in multiset(keys) by {
      assert forall k :: k in checked.processed ==> k in multiset(checked.processed);
    }
    unseen := Select(items, keyOf, itemLookup, checked.unseen);
    processed := Select(items, keyOf, itemLookup, checked.processed);
    LastItemsConcat(items, keyOf, checked.unseen, unseen, checked.processed, processed);
    forall k
      ensures WithKey(unseen + processed, keyOf, k) == One(HasKey(items, keyOf, k))
    {
      KeysCounted(items, keyOf, checked.unseen + checked.processed, unseen + processed, k);
      DistinctOnce(keys, k);
    }
  }

  lemma LastItemsConcat<T>(items: seq<T>, keyOf: T -> string, ks: seq<string>, a: seq<T>, ls: seq<string>, b: seq<T>)
    requires LastItems(items, keyOf, ks, a) && LastItems(items, keyOf, ls, b)
    ensures LastItems(items, keyOf, ks + ls, a + b)
    ensures forall x :: x in a + b ==> LastWithKey(items, keyOf, keyOf(x), x)
  {
    forall n | 0 <= n < |ks + ls|
      ensures LastWithKey(items, keyOf, (ks + ls)[n], (a + b)[n])
    {
      if n >= |ks| {
        assert (ks + ls)[n] == ls[n - |ks|] && (a + b)[n] == b[n - |ks|];
      }
    }
    forall x | x in a + b
      ensures LastWithKey(items, keyOf, keyOf(x), x)
    {
      var n :| 0 <= n < |a + b| && (a + b)[n] == x;
      assert LastWithKey(items, keyOf, (ks + ls)[n], x);
    }
  }

  /** The outputs with key `k` are as many as `k` has occurrences among their keys. */
  lemma {:induction false} KeysCounted<T>(items: seq<T>, keyOf: T -> string, keys: seq<string>, out: seq<T>, k: string)
    requires LastItems(items, keyOf, keys, out)
    ensures WithKey(out, keyOf, k) == multiset(keys)[k]
  {
    if out != [] {
      assert LastItems(items, keyOf, keys[1..], out[1..]) by {
        assert forall n :: 0 <= n < |keys[1..]| ==> keys[1..][n] == keys[n + 1] && out[1..][n] == out[n + 1];
      }
      KeysCounted(items, keyOf, keys[1..], out[1..], k);
      assert keys == [keys[0]] + keys[1..];
      assert keyOf(out[0]) == keys[0];
    }
  }

  lemma {:induction false} DistinctOnce(keys: seq<string>, k: string)
    requires Distinct(keys)
    ensures multiset(keys)[k] == One(k in keys)
  {
    if keys != [] {
      assert keys == [keys[0]] + keys[1..];
      assert Distinct(keys[1..]);
      DistinctOnce(keys[1..], k);
    }
  }
}
