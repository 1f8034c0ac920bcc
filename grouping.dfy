/** The accumulator-object idiom of Overview.tsx: entries are folded into
    a plain object keyed by string, `acc[k] = (acc[k] || 0) + amount`, and
    read back with `Object.entries`, whose order is the order in which the
    keys were first written. */
module Grouping {
  /** One contribution: the key it is filed under and the amount it adds. */
  datatype Entry = Entry(key: string, amount: real)

  /** The keys of the accumulator after folding `entries`, in insertion
      order. */
  function Keys(entries: seq<Entry>): (ks: seq<string>)
    ensures forall i, j :: 0 <= i < j < |ks| ==> ks[i] != ks[j]
    ensures forall k :: k in ks <==> exists i :: 0 <= i < |entries| && entries[i].key == k
  {
    if entries == [] then []
    else
      var prefix := entries[..|entries| - 1];
      var ks := Keys(prefix);
      var k := entries[|entries| - 1].key;
      assert forall i :: 0 <= i < |prefix| ==> prefix[i] == entries[i];
      if k in ks then ks else ks + [k]
  }

  /** Every entry filed under `b` comes after some entry filed under `a`. */
  predicate FiledBefore(entries: seq<Entry>, a: string, b: string) {
    forall q :: 0 <= q < |entries| && entries[q].key == b ==>
      exists p :: 0 <= p < q && entries[p].key == a
  }

  /** The keys come in the order in which they were first written: an
      earlier key was filed before any entry of a later key. */
  lemma {:induction false} KeysInFirstWrittenOrder(entries: seq<Entry>)
    ensures forall i, j :: 0 <= i < j < |Keys(entries)| ==> FiledBefore(entries, Keys(entries)[i], Keys(entries)[j])
  {
    if entries != [] {
      var prefix := entries[..|entries| - 1];
      var e := entries[|entries| - 1];
      var ks := Keys(entries);
      var before := Keys(prefix);
      assert forall i :: 0 <= i < |prefix| ==> prefix[i] == entries[i];
      KeysInFirstWrittenOrder(prefix);
      forall i, j | 0 <= i < j < |ks| ensures FiledBefore(entries, ks[i], ks[j]) {
        assert ks[i] in before;
        forall q | 0 <= q < |entries| && entries[q].key == ks[j]
          ensures exists p :: 0 <= p < q && entries[p].key == ks[i]
        {
          if j < |before| {
            assert FiledBefore(prefix, before[i], before[j]);
            if q < |prefix| {
              assert prefix[q].key == before[j];
            } else {
              assert before[j] in before;
              var q' :| 0 <= q' < |prefix| && prefix[q'].key == before[j];
              var p :| 0 <= p < q' && prefix[p].key == before[i];
              assert entries[p].key == ks[i];
            }
          } else {
            assert ks[j] == e.key && e.key !in before;
            var p :| 0 <= p < |prefix| && prefix[p].key == ks[i];
            assert entries[p].key == ks[i];
          }
        }
      }
    }
  }

  /** The value the accumulator holds for `k` after folding `entries`. */
  function SumFor(entries: seq<Entry>, k: string): real {
    if entries == [] then 0.0
    else
      var last := entries[|entries| - 1];
      SumFor(entries[..|entries| - 1], k) + (if last.key == k then last.amount else 0.0)
  }

  /** The sum of every amount. */
  function Total(entries: seq<Entry>): real {
    if entries == [] then 0.0 else Total(entries[..|entries| - 1]) + entries[|entries| - 1].amount
  }

  /** The sum of the accumulator's values over the keys `keys`. */
  function SumOver(keys: seq<string>, entries: seq<Entry>): real {
    if keys == [] then 0.0 else SumOver(keys[..|keys| - 1], entries) + SumFor(entries, keys[|keys| - 1])
  }

  /** Folding one entry before the others adds its amount to its own key
      and nothing to the other keys. */
  lemma {:induction false} SumForCons(e: Entry, entries: seq<Entry>, k: string)
    ensures SumFor([e] + entries, k) == (if e.key == k then e.amount else 0.0) + SumFor(entries, k)
  {
    var all := [e] + entries;
    if entries != [] {
      var prefix := entries[..|entries| - 1];
      assert all[..|all| - 1] == [e] + prefix;
      SumForCons(e, prefix, k);
    } else {
      assert all[..|all| - 1] == [];
    }
  }

  /** A key no entry is filed under holds nothing. */
  lemma {:induction false} SumForAbsent(entries: seq<Entry>, k: string)
    requires k !in Keys(entries)
    ensures SumFor(entries, k) == 0.0
  {
    if entries != [] {
      var prefix := entries[..|entries| - 1];
      assert forall i :: 0 <= i < |prefix| ==> prefix[i] == entries[i];
      SumForAbsent(prefix, k);
    }
  }

  /** One more entry adds its amount to the total over distinct keys
      exactly when its key is among them. */
  lemma {:induction false} SumOverStep(keys: seq<string>, entries: seq<Entry>, e: Entry)
    requires forall i, j :: 0 <= i < j < |keys| ==> keys[i] != keys[j]
    ensures SumOver(keys, entries + [e]) == SumOver(keys, entries) + (if e.key in keys then e.amount else 0.0)
  {
    if keys != [] {
      var init := keys[..|keys| - 1];
      assert (entries + [e])[..|entries|] == entries;
      SumOverStep(init, entries, e);
      assert keys == init + [keys[|keys| - 1]];
      assert e.key in keys <==> e.key in init || e.key == keys[|keys| - 1];
    }
  }

  /** The values read back from the accumulator add up to the sum of all
      amounts folded into it. */
  lemma {:induction false} GroupsAddUp(entries: seq<Entry>)
    ensures SumOver(Keys(entries), entries) == Total(entries)
  {
    if entries != [] {
      var prefix := entries[..|entries| - 1];
      var e := entries[|entries| - 1];
      assert entries == prefix + [e];
      GroupsAddUp(prefix);
      SumOverStep(Keys(prefix), prefix, e);
      if e.key !in Keys(prefix) {
        var ks := Keys(prefix) + [e.key];
        assert ks[..|ks| - 1] == Keys(prefix);
        SumForAbsent(prefix, e.key);
      }
    }
  }

  /** The fold itself: `acc[e.key] = (acc[e.key] || 0) + e.amount` for
      each entry in turn, with the keys in the order they were created. */
  method GroupSum(entries: seq<Entry>) returns (keys: seq<string>, sums: map<string, real>)
    ensures keys == Keys(entries)
    ensures forall k :: k in sums <==> k in keys
    ensures forall k :: k in sums ==> sums[k] == SumFor(entries, k)
  {
    keys := [];
    sums := map[];
    for i := 0 to |entries|
      invariant keys == Keys(entries[..i])
      invariant forall k :: k in sums <==> k in keys
      invariant forall k :: k in sums ==> sums[k] == SumFor(entries[..i], k)
    {
      var e := entries[i];
      assert entries[..i + 1][..i] == entries[..i];
      if e.key !in sums {
        SumForAbsent(entries[..i], e.key);
        keys := keys + [e.key];
        sums := sums[e.key := 0.0];
      }
      sums := sums[e.key := sums[e.key] + e.amount];
    }
    assert entries[..|entries|] == entries;
  }
}
