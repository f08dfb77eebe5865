/** The order `export` puts `videoOrAudioClips` in before compiling.

    The comparator treats every clip with a falsy position (0) as "first",
    whichever side it is on, and two positioned clips at the same position
    as "second" both ways, so it is not a consistent order. What any sort
    using it delivers, and what the compiler relies on, is `SortedByPosition`:
    falsy-position clips first, the rest by non-decreasing position. */
module Ordering {
  import opened Clips

  /** A position JavaScript treats as falsy (an absent position is not modelled). */
  predicate Unpositioned(c: Clip) { c.position == 0.0 }

  /** The comparator passed to `sort`: negative puts `a` first. */
  function Compare(a: Clip, b: Clip): (r: int)
    ensures r == -1 || r == 1
    ensures r < 0 <==> Unpositioned(a) || (!Unpositioned(b) && a.position < b.position)
  {
    if a.position == 0.0 then -1
    else if b.position == 0.0 then 1
    else if a.position < b.position then -1
    else 1
  }

  /** `a` may stand before `b` in the sorted array. */
  predicate Precedes(a: Clip, b: Clip)
  {
    Unpositioned(a) || (!Unpositioned(b) && a.position <= b.position)
  }

  predicate SortedByPosition(s: seq<Clip>)
  {
    forall i, j :: 0 <= i < j < |s| ==> Precedes(s[i], s[j])
  }

  /** Sortedness says exactly: unpositioned clips precede all positioned
      ones, and positioned clips are in non-decreasing position order. */
  lemma SortedMeaning(s: seq<Clip>)
    ensures SortedByPosition(s) <==>
              (forall i, j :: 0 <= i < j < |s| && Unpositioned(s[j]) ==> Unpositioned(s[i]))
              && (forall i, j :: 0 <= i < j < |s| && !Unpositioned(s[i]) ==> s[i].position <= s[j].position)
  {
  }

  /** The comparator disagrees with itself on two unpositioned clips, and on
      two clips at the same position: it puts each before the other. */
  lemma CompareIsNotAnOrder(a: Clip, b: Clip)
    requires Unpositioned(a) == Unpositioned(b)
    requires a.position == b.position
    ensures Compare(a, b) == Compare(b, a)
  {
  }

  /** Wherever the comparator decides, its decision agrees with `Precedes`. */
  lemma CompareAgreesWithPrecedes(a: Clip, b: Clip)
    ensures Compare(a, b) < 0 ==> Precedes(a, b)
    ensures Compare(a, b) > 0 ==> Precedes(b, a)
  {
  }

  lemma PrecedesTransitive(a: Clip, b: Clip, c: Clip)
    requires Precedes(a, b) && Precedes(b, c)
    ensures Precedes(a, c)
  {
  }

  /** Inserts `x` before the first element the comparator ranks after it,
      as one step of an insertion sort with that comparator. */
  function Insert(s: seq<Clip>, x: Clip): (r: seq<Clip>)
    ensures multiset(r) == multiset(s) + multiset{x}
    ensures SortedByPosition(s) ==> SortedByPosition(r)
    decreases |s|
  {
    if s == [] then [x]
    else if Compare(x, s[0]) < 0 then
      InsertFront(s, x);
      [x] + s
    else
      var rest := Insert(s[1..], x);
      assert s == [s[0]] + s[1..];
      InsertBehind(s, x, rest);
      [s[0]] + rest
  }

  lemma InsertFront(s: seq<Clip>, x: Clip)
    requires s != [] && Compare(x, s[0]) < 0
    ensures SortedByPosition(s) ==> SortedByPosition([x] + s)
  {
    if SortedByPosition(s) {
      forall j | 1 <= j < |s| + 1
        ensures Precedes(x, ([x] + s)[j])
      {
        if j > 1 {
          PrecedesTransitive(x, s[0], s[j - 1]);
        }
      }
    }
  }

  lemma InsertBehind(s: seq<Clip>, x: Clip, rest: seq<Clip>)
    requires s != [] && Compare(x, s[0]) > 0
    requires multiset(rest) == multiset(s[1..]) + multiset{x}
    requires SortedByPosition(s[1..]) ==> SortedByPosition(rest)
    ensures SortedByPosition(s) ==> SortedByPosition([s[0]] + rest)
  {
    if SortedByPosition(s) {
      assert SortedByPosition(s[1..]);
      forall j | 0 <= j < |rest|
        ensures Precedes(s[0], rest[j])
      {
        assert rest[j] in multiset(rest);
        if rest[j] != x {
          assert rest[j] in multiset(s[1..]);
          var k :| 0 <= k < |s[1..]| && s[1..][k] == rest[j];
          assert s[k + 1] == rest[j];
        }
      }
    }
  }

  /** An insertion sort with the source's comparator: the clips inserted
      one by one, in array order. Any sort with that comparator yields a
      permutation sorted by position; this one fixes the order of ties. */
  function InsertAll(s: seq<Clip>): (r: seq<Clip>)
    ensures multiset(r) == multiset(s)
    ensures SortedByPosition(r)
  {
    if s == [] then []
    else
      assert s == s[..|s| - 1] + [s[|s| - 1]];
      Insert(InsertAll(s[..|s| - 1]), s[|s| - 1])
  }
}
