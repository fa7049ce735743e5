/**
 What the stream map returns, key by key.

 An output of the selector is a key with an item, or a key alone when its stream has ended. One key may have
 belonged to several tasks, one after the other.
 */
module MapItems {
  import opened Wrappers
  import opened Batches
  import opened SelectorTheorems

  /** The outputs that carry an item: what the map returns. */
  function Whole<K, I>(values: seq<(K, Option<I>)>): seq<(K, I)> {
    if values == [] then []
    else
      var v := values[|values| - 1];
      Whole(values[..|values| - 1]) + match v.1 case Some(item) => [(v.0, item)] case None => []
  }

  /** The items of one key. */
  function OfKey<K(==), I>(returned: seq<(K, I)>, key: K): seq<I> {
    if returned == [] then []
    else
      var v := returned[|returned| - 1];
      OfKey(returned[..|returned| - 1], key) + if v.0 == key then [v.1] else []
  }

  /** The items alone. */
  function Somes<K, I>(values: seq<(K, Option<I>)>): seq<I> {
    if values == [] then []
    else
      var v := values[|values| - 1];
      Somes(values[..|values| - 1]) + match v.1 case Some(item) => [item] case None => []
  }

  /** An output has the key of its task; one with an item comes after those of older tasks of the same key. */
  ghost predicate Ordered<K, I>(outputs: seq<(nat, (K, Option<I>))>, owners: seq<K>) {
    && (forall i :: 0 <= i < |outputs| ==> outputs[i].0 < |owners| && owners[outputs[i].0] == outputs[i].1.0)
    && (forall i, j :: 0 <= i < j < |outputs| && outputs[i].1.0 == outputs[j].1.0 && outputs[j].1.1.Some? ==>
          outputs[i].0 <= outputs[j].0)
  }

  /** The items of the first `count` tasks, as far as they have the key, one task after the other. */
  function Grouped<K(==), I>(outputs: seq<(nat, (K, Option<I>))>, owners: seq<K>, key: K, count: nat): seq<I>
    requires count <= |owners|
  {
    if count == 0 then []
    else
      Grouped(outputs, owners, key, count - 1)
      + if owners[count - 1] == key then Somes(OutputsOf(outputs, count - 1)) else []
  }

  lemma WholeConcat<K, I>(values: seq<(K, Option<I>)>, v: (K, Option<I>))
    ensures Whole(values + [v]) == Whole(values) + match v.1 case Some(item) => [(v.0, item)] case None => []
  {
    assert (values + [v])[..|values|] == values;
  }

  lemma OfKeyConcat<K, I>(returned: seq<(K, I)>, v: (K, I), key: K)
    ensures OfKey(returned + [v], key) == OfKey(returned, key) + if v.0 == key then [v.1] else []
  {
    assert (returned + [v])[..|returned|] == returned;
  }

  lemma {:induction false} OldTasksHaveNone<K, I>(outputs: seq<(nat, (K, Option<I>))>, n: nat)
    requires forall i :: 0 <= i < |outputs| ==> outputs[i].0 != n
    ensures OutputsOf(outputs, n) == []
  {
    if outputs != [] {
      OldTasksHaveNone(outputs[..|outputs| - 1], n);
    }
  }

  /** One more output goes to its task. */
  lemma {:induction false} GroupedSnoc<K, I>(outputs: seq<(nat, (K, Option<I>))>, x: (nat, (K, Option<I>)),
                                            owners: seq<K>, key: K, count: nat)
    requires count <= |owners| && Ordered(outputs + [x], owners)
    ensures Grouped(outputs + [x], owners, key, count) ==
      Grouped(outputs, owners, key, count)
      + if x.0 < count && x.1.0 == key && x.1.1.Some? then [x.1.1.value] else []
  {
    hide Somes, OutputsOf;
    if count > 0 {
      var all, n := outputs + [x], count - 1;
      GroupedSnoc(outputs, x, owners, key, n);
      assert all[..|outputs|] == outputs && all[|outputs|] == x;
      SomesOfTask(outputs, x, n);
      if x.0 < n && x.1.0 == key && x.1.1.Some? && owners[n] == key {
        forall i | 0 <= i < |outputs|
          ensures outputs[i].0 != n
        {
          assert all[i] == outputs[i];
        }
        OldTasksHaveNone(outputs, n);
        NoItems<K, I>();
      }
    }
  }

  lemma NoItems<K, I>()
    ensures Somes<K, I>([]) == []
  {
  }

  lemma SomesOfTask<K, I>(outputs: seq<(nat, (K, Option<I>))>, x: (nat, (K, Option<I>)), n: nat)
    ensures Somes(OutputsOf(outputs + [x], n)) ==
      Somes(OutputsOf(outputs, n)) + if x.0 == n && x.1.1.Some? then [x.1.1.value] else []
  {
    assert (outputs + [x])[..|outputs|] == outputs;
    var was := OutputsOf(outputs, n);
    if x.0 == n {
      assert OutputsOf(outputs + [x], n) == was + [x.1];
      assert (was + [x.1])[..|was|] == was;
    } else {
      assert OutputsOf(outputs + [x], n) == was;
    }
  }

  /** The items returned for a key are the items of its tasks, one task after the other. */
  lemma {:induction false} KeyByKey<K, I>(outputs: seq<(nat, (K, Option<I>))>, owners: seq<K>, key: K)
    requires Ordered(outputs, owners)
    ensures OfKey(Whole(Values(outputs)), key) == Grouped(outputs, owners, key, |owners|)
  {
    hide Whole, OfKey, Grouped;
    if outputs == [] {
      NothingReturned<K, I>(key);
      NothingGrouped<K, I>(owners, key, |owners|);
    } else {
      var rest, x := outputs[..|outputs| - 1], outputs[|outputs| - 1];
      KeyByKey(rest, owners, key);
      assert outputs == rest + [x];
      GroupedSnoc(rest, x, owners, key, |owners|);
      WholeConcat(Values(rest), x.1);
      var was := Whole(Values(rest));
      match x.1.1
      case Some(item) => OfKeyConcat(was, (x.1.0, item), key);
      case None => assert was + [] == was;
    }
  }

  lemma NothingReturned<K, I>(key: K)
    ensures OfKey(Whole<K, I>([]), key) == []
  {
  }

  lemma {:induction false} NothingGrouped<K, I>(owners: seq<K>, key: K, count: nat)
    requires count <= |owners|
    ensures Grouped<K, I>([], owners, key, count) == []
  {
    if count > 0 {
      NothingGrouped<K, I>(owners, key, count - 1);
    }
  }
}
