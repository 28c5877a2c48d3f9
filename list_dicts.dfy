/**
 * The technique table: a `defaultdict(list)` from technique id to rule ids that is only
 * ever extended by `d[k].append(v)`. Python dictionaries keep insertion order, so the
 * value records the keys in that order beside the map itself.
 */
module ListDicts {
  import opened Lists

  datatype ListDict = ListDict(keys: seq<string>, lists: map<string, seq<string>>) {

    /** Keys in insertion order, each once, exactly the map's domain; no key maps to an
        empty list, since a list is only created by appending to it. */
    ghost predicate Valid() {
      && NoDuplicates(keys)
      && (forall k :: k in lists <==> k in keys)
      && (forall k :: k in lists ==> lists[k] != [])
    }

    /** `d[k].append(v)`: a missing key gets a fresh list and goes to the end of the order. */
    function Append(k: string, v: string): (r: ListDict)
      requires Valid()
      ensures r.Valid()
      ensures r.keys == if k in keys then keys else keys + [k]
      ensures r.lists == lists[k := if k in lists then lists[k] + [v] else [v]]
    {
      if k in lists then ListDict(keys, lists[k := lists[k] + [v]])
      else ListDict(keys + [k], lists[k := [v]])
    }
  }

  /** Appending under a new key puts it last with a one-value list. */
  lemma AppendNewKey(d: ListDict, k: string, v: string)
    requires d.Valid() && k !in d.lists
    ensures d.Append(k, v) == ListDict(d.keys + [k], d.lists[k := [v]])
  {
  }

  /** `defaultdict(list)` as first created. */
  const Empty: ListDict := ListDict([], map[])

  /** The keys of `pairs`, in order. */
  function KeysOf(pairs: seq<(string, string)>): seq<string> {
    if pairs == [] then [] else KeysOf(pairs[..|pairs| - 1]) + [pairs[|pairs| - 1].0]
  }

  /** The values paired with `k` in `pairs`, in order. */
  function ValuesFor(pairs: seq<(string, string)>, k: string): seq<string> {
    if pairs == [] then []
    else
      var last := pairs[|pairs| - 1];
      ValuesFor(pairs[..|pairs| - 1], k) + (if last.0 == k then [last.1] else [])
  }

  /**
   * The table after `d[k].append(v)` for each `(k, v)` of `pairs` in turn, starting from
   * an empty one.
   */
  function Group(pairs: seq<(string, string)>): (d: ListDict)
    ensures d.Valid()
  {
    if pairs == [] then Empty
    else
      var p, last := pairs[..|pairs| - 1], pairs[|pairs| - 1];
      Group(p).Append(last.0, last.1)
  }

  /**
   * The grouped table holds its keys in first-occurrence order, and under each key the
   * values paired with it, in order.
   */
  lemma {:induction false} GroupContents(pairs: seq<(string, string)>)
    ensures Group(pairs).keys == Dedup(KeysOf(pairs))
    ensures forall k :: k in Group(pairs).lists <==> k in KeysOf(pairs)
    ensures forall k :: k in Group(pairs).lists ==> Group(pairs).lists[k] == ValuesFor(pairs, k)
  {
    if pairs != [] {
      var p, last := pairs[..|pairs| - 1], pairs[|pairs| - 1];
      DropLast(pairs);
      GroupContents(p);
      KeysOfValuesFor(p, last.0);
    }
  }

  /** A key occurs in `pairs` exactly when some value is paired with it. */
  lemma {:induction false} KeysOfValuesFor(pairs: seq<(string, string)>, k: string)
    ensures k in KeysOf(pairs) <==> ValuesFor(pairs, k) != []
  {
    if pairs != [] {
      KeysOfValuesFor(pairs[..|pairs| - 1], k);
    }
  }

  /** Values paired with `k` in a concatenation. */
  lemma {:induction false} ValuesForConcat(a: seq<(string, string)>, b: seq<(string, string)>, k: string)
    ensures ValuesFor(a + b, k) == ValuesFor(a, k) + ValuesFor(b, k)
  {
    if b == [] {
      AppendEmpty(a);
    } else {
      var b' := b[..|b| - 1];
      assert (a + b)[..|a + b| - 1] == a + b';
      ValuesForConcat(a, b', k);
    }
  }

  /** Sum of the lengths of the lists under `keys`. */
  function SumLengths(keys: seq<string>, lists: map<string, seq<string>>): nat
    requires forall k :: k in keys ==> k in lists
  {
    if keys == [] then 0
    else SumLengths(keys[..|keys| - 1], lists) + |lists[keys[|keys| - 1]]|
  }

  /** The number of values the table holds, over all keys. */
  function TotalLength(d: ListDict): nat
    requires d.Valid()
  {
    SumLengths(d.keys, d.lists)
  }

  /** Changing the list under a key that is not in `keys` does not change the sum. */
  lemma {:induction false} SumLengthsOther(keys: seq<string>, lists: map<string, seq<string>>, k: string, l: seq<string>)
    requires forall k' :: k' in keys ==> k' in lists
    requires k !in keys
    ensures SumLengths(keys, lists[k := l]) == SumLengths(keys, lists)
  {
    if keys != [] {
      SumLengthsOther(keys[..|keys| - 1], lists, k, l);
    }
  }

  /** Replacing the list under a key that occurs once in `keys` changes the sum by the difference. */
  lemma {:induction false} SumLengthsUpdate(keys: seq<string>, lists: map<string, seq<string>>, k: string, l: seq<string>)
    requires forall k' :: k' in keys ==> k' in lists
    requires NoDuplicates(keys) && k in keys
    ensures SumLengths(keys, lists[k := l]) + |lists[k]| == SumLengths(keys, lists) + |l|
  {
    var p, last := keys[..|keys| - 1], keys[|keys| - 1];
    DropLast(keys);
    if last == k {
      assert k !in p;
      SumLengthsOther(p, lists, k, l);
    } else {
      SumLengthsUpdate(p, lists, k, l);
    }
  }

  /** Each append adds exactly one value to the table. */
  lemma AppendTotalLength(d: ListDict, k: string, v: string)
    requires d.Valid()
    ensures TotalLength(d.Append(k, v)) == TotalLength(d) + 1
  {
    if k in d.lists {
      SumLengthsUpdate(d.keys, d.lists, k, d.lists[k] + [v]);
    } else {
      var r := d.Append(k, v);
      TakeAppend(d.keys, [k]);
      SumLengthsOther(d.keys, d.lists, k, [v]);
    }
  }

  /** The table built from `pairs` holds exactly `|pairs|` values. */
  lemma {:induction false} GroupTotalLength(pairs: seq<(string, string)>)
    ensures TotalLength(Group(pairs)) == |pairs|
  {
    if pairs != [] {
      var p, last := pairs[..|pairs| - 1], pairs[|pairs| - 1];
      GroupTotalLength(p);
      AppendTotalLength(Group(p), last.0, last.1);
    }
  }
}
