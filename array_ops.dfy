/**
 The three array operations the form handlers are built from, on Dafny
 sequences: `map` with an index-aware callback, `filter` with an
 index-aware predicate, and the spread-append `[...prev, x]`.

 `MapWithIndex` and `FilterWithIndex` recurse from the end of the
 sequence, so the index handed to the callback is the element's position,
 exactly as in the JavaScript callbacks `(x, i) => …`.
 */
module ArrayOps {

  /** `s.map((x, i) => f(x, i))`: same length, element i becomes f(s[i], i). */
  function MapWithIndex<T, U>(s: seq<T>, f: (T, int) -> U): (r: seq<U>)
    ensures |r| == |s|
    ensures forall i :: 0 <= i < |s| ==> r[i] == f(s[i], i)
    decreases |s|
  {
    if s == [] then []
    else MapWithIndex(s[..|s| - 1], f) + [f(s[|s| - 1], |s| - 1)]
  }

  /** `s.filter((x, i) => keep(x, i))`: the kept elements, in their order. */
  function FilterWithIndex<T>(s: seq<T>, keep: (T, int) -> bool): (r: seq<T>)
    ensures |r| <= |s|
    ensures forall x :: x in r ==> x in s
    decreases |s|
  {
    if s == [] then []
    else
      var rest := FilterWithIndex(s[..|s| - 1], keep);
      if keep(s[|s| - 1], |s| - 1) then rest + [s[|s| - 1]] else rest
  }

  /** A filter whose predicate holds of every element keeps the whole sequence. */
  lemma {:induction false} FilterKeepingAll<T>(s: seq<T>, keep: (T, int) -> bool)
    requires forall i :: 0 <= i < |s| ==> keep(s[i], i)
    ensures FilterWithIndex(s, keep) == s
    decreases |s|
  {
    if s != [] {
      var init := s[..|s| - 1];
      FilterKeepingAll(init, keep);
      assert init + [s[|s| - 1]] == s;
    }
  }

  /** A filter whose predicate fails exactly at position k deletes s[k] and nothing else. */
  lemma {:induction false} FilterDroppingOne<T>(s: seq<T>, keep: (T, int) -> bool, k: int)
    requires 0 <= k < |s|
    requires !keep(s[k], k)
    requires forall i :: 0 <= i < |s| && i != k ==> keep(s[i], i)
    ensures FilterWithIndex(s, keep) == s[..k] + s[k + 1..]
    decreases |s|
  {
    var last := |s| - 1;
    var init := s[..last];
    if k == last {
      FilterKeepingAll(init, keep);
      assert s[k + 1..] == [];
    } else {
      FilterDroppingOne(init, keep, k);
      assert init[..k] == s[..k];
      assert init[k + 1..] + [s[last]] == s[k + 1..];
    }
  }

  /** `prev.map((x, i) => i === index ? g(x) : x)`: replace the entry at `index`. */
  function UpdateAt<T>(s: seq<T>, index: int, g: T -> T): (r: seq<T>)
    ensures |r| == |s|
    ensures 0 <= index < |s| ==> r[index] == g(s[index])
    ensures forall j :: 0 <= j < |s| && j != index ==> r[j] == s[j]
    ensures !(0 <= index < |s|) ==> r == s
  {
    MapWithIndex(s, (x: T, i: int) => if i == index then g(x) else x)
  }

  /** `prev.filter((_, i) => i !== index)`: delete the entry at `index`, if there is one. */
  function RemoveAt<T>(s: seq<T>, index: int): (r: seq<T>)
    ensures 0 <= index < |s| ==> r == s[..index] + s[index + 1..]
    ensures !(0 <= index < |s|) ==> r == s
  {
    var keep := (x: T, i: int) => i != index;
    if 0 <= index < |s| then
      FilterDroppingOne(s, keep, index);
      FilterWithIndex(s, keep)
    else
      FilterKeepingAll(s, keep);
      FilterWithIndex(s, keep)
  }

  /** `[...prev, x]`: the old sequence is an untouched prefix and x is the new last element. */
  function Append<T>(s: seq<T>, x: T): (r: seq<T>)
    ensures |r| == |s| + 1
    ensures r[..|s|] == s
    ensures r[|s|] == x
  {
    s + [x]
  }

  /** Removal at a valid index shortens by one and shifts the later entries down by one. */
  lemma RemoveAtShifts<T>(s: seq<T>, index: int)
    requires 0 <= index < |s|
    ensures |RemoveAt(s, index)| == |s| - 1
    ensures forall j :: 0 <= j < index ==> RemoveAt(s, index)[j] == s[j]
    ensures forall j :: index <= j < |s| - 1 ==> RemoveAt(s, index)[j] == s[j + 1]
  {
  }

  /** Removing the entry just appended gives back the original sequence. */
  lemma RemoveAppended<T>(s: seq<T>, x: T)
    ensures RemoveAt(Append(s, x), |s|) == s
  {
  }

  /** Writing the same entry twice keeps only the second write. */
  lemma UpdateAtTwice<T>(s: seq<T>, index: int, g: T -> T, h: T -> T)
    ensures UpdateAt(UpdateAt(s, index, g), index, h) == UpdateAt(s, index, (x: T) => h(g(x)))
  {
  }
}
