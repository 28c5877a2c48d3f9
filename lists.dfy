/** Sequence helpers: first-occurrence deduplication, first index, and string joining. */
module Lists {

  /** No value occurs twice in `s`. */
  predicate NoDuplicates<T(==,!new)>(s: seq<T>) {
    forall i, j :: 0 <= i < j < |s| ==> s[i] != s[j]
  }

  /** `if x not in d: d.append(x)` */
  function AddNew<T(==,!new)>(d: seq<T>, x: T): seq<T> {
    if x in d then d else d + [x]
  }

  /** The values of `s` in order of first occurrence, each once. */
  function Dedup<T(==,!new)>(s: seq<T>): (d: seq<T>)
    ensures NoDuplicates(d)
  {
    if s == [] then []
    else
      var p := s[..|s| - 1];
      DropLast(s);
      AddNew(Dedup(p), s[|s| - 1])
  }

  /** Deduplication keeps exactly the values of `s`. */
  lemma {:induction false} DedupSameElements<T(!new)>(s: seq<T>)
    ensures forall x :: x in Dedup(s) <==> x in s
  {
    if s != [] {
      var p := s[..|s| - 1];
      DropLast(s);
      DedupSameElements(p);
    }
  }

  /** The position at which `x` first occurs in `s`. */
  function FirstIndex<T(==,!new)>(s: seq<T>, x: T): (i: nat)
    requires x in s
    ensures i < |s| && s[i] == x && x !in s[..i]
  {
    var p := s[..|s| - 1];
    DropLast(s);
    if x in p then
      var i := FirstIndex(p, x);
      assert s[..i] == p[..i];
      i
    else
      |s| - 1
  }

  /** Any position that holds `x` with no earlier `x` is the first index. */
  lemma FirstIndexUnique<T(!new)>(s: seq<T>, x: T, i: nat)
    requires i < |s| && s[i] == x && x !in s[..i]
    ensures FirstIndex(s, x) == i
  {
  }

  /** Appending does not move the first occurrence of a value already present. */
  lemma FirstIndexAppend<T(!new)>(s: seq<T>, y: T, x: T)
    requires x in s
    ensures FirstIndex(s + [y], x) == FirstIndex(s, x)
  {
    var i := FirstIndex(s, x);
    assert (s + [y])[..i] == s[..i];
    FirstIndexUnique(s + [y], x, i);
  }

  /** The values of `Dedup(s)` appear in the order of their first occurrence in `s`. */
  ghost predicate InFirstOccurrenceOrder<T(!new)>(s: seq<T>) {
    forall i, j :: 0 <= i < j < |Dedup(s)| ==>
      Dedup(s)[i] in s && Dedup(s)[j] in s && FirstIndex(s, Dedup(s)[i]) < FirstIndex(s, Dedup(s)[j])
  }

  /** Deduplication keeps the values in the order of their first occurrence in `s`. */
  lemma {:induction false} DedupFirstOccurrenceOrder<T(!new)>(s: seq<T>)
    ensures InFirstOccurrenceOrder(s)
  {
    if s == [] {
      assert Dedup(s) == [];
    } else {
      var p, x := s[..|s| - 1], s[|s| - 1];
      DropLast(s);
      DedupFirstOccurrenceOrder(p);
      DedupOrderSnoc(p, x);
    }
  }

  lemma DedupOrderSnoc<T(!new)>(p: seq<T>, x: T)
    requires InFirstOccurrenceOrder(p)
    ensures InFirstOccurrenceOrder(p + [x])
  {
    var s := p + [x];
    TakeAppend(p, [x]);
    DedupSameElements(p);
    var d := Dedup(p);
    assert Dedup(s) == AddNew(d, x);
    forall y | y in d ensures y in p && FirstIndex(s, y) == FirstIndex(p, y) {
      FirstIndexAppend(p, x, y);
    }
    if x !in d {
      var e := d + [x];
      FirstIndexUnique(s, x, |p|);
      forall i, j | 0 <= i < j < |e|
        ensures e[i] in s && e[j] in s && FirstIndex(s, e[i]) < FirstIndex(s, e[j])
      {
        assert e[i] == d[i] && d[i] in d;
        if j < |d| {
          assert e[j] == d[j] && d[j] in d;
        }
      }
    }
  }

  // Sequence identities, stated once so that callers need not prove them by extensionality.

  lemma AppendEmpty<T>(s: seq<T>)
    ensures s + [] == s
  {
  }

  lemma AppendEmptyLeft<T>(s: seq<T>)
    ensures [] + s == s
  {
  }

  lemma PairOf<T>(a: T, b: T)
    ensures [a] + [b] == [a, b]
  {
  }

  lemma TakeSnoc<T>(s: seq<T>, i: nat)
    requires i < |s|
    ensures s[..i + 1] == s[..i] + [s[i]]
  {
  }

  lemma TakeAll<T>(s: seq<T>)
    ensures s[..|s|] == s
  {
  }

  lemma DropLast<T>(s: seq<T>)
    requires s != []
    ensures s == s[..|s| - 1] + [s[|s| - 1]]
  {
  }

  lemma TakeAppend<T>(a: seq<T>, b: seq<T>)
    ensures (a + b)[..|a|] == a
  {
  }

  lemma TakePrefix<T>(s: seq<T>, i: nat, j: nat)
    requires i <= j <= |s|
    ensures s[..j][..i] == s[..i]
  {
  }

  lemma ConcatAssoc<T>(a: seq<T>, b: seq<T>, c: seq<T>)
    ensures a + b + c == a + (b + c)
  {
  }

  /**
   * Python's `sep.join(xs)`: empty for no strings and the string itself for one; otherwise
   * it starts with the first string, then a separator, and ends with a separator and the
   * last string.
   */
  function Join(sep: string, xs: seq<string>): (r: string)
    ensures xs == [] ==> r == ""
    ensures |xs| == 1 ==> r == xs[0]
    ensures xs != [] ==> xs[0] <= r
    ensures xs != [] ==> |xs[|xs| - 1]| <= |r| && r[|r| - |xs[|xs| - 1]|..] == xs[|xs| - 1]
    ensures |xs| >= 2 ==> xs[0] + sep <= r
    ensures |xs| >= 2 ==> |sep + xs[|xs| - 1]| <= |r| && r[|r| - |sep + xs[|xs| - 1]|..] == sep + xs[|xs| - 1]
  {
    if xs == [] then ""
    else if |xs| == 1 then xs[0]
    else
      var p := xs[..|xs| - 1];
      var j := Join(sep, p);
      var r := j + sep + xs[|xs| - 1];
      assert p[0] == xs[0];
      assert |xs| >= 3 ==> xs[0] + sep <= j;
      assert |xs| == 2 ==> j == xs[0];
      assert r[|r| - |sep + xs[|xs| - 1]|..] == sep + xs[|xs| - 1];
      r
  }
}
