/** Playlist ordering (mapcontroller.js, `sortByMileAndDate` and
    `isCurrentlyChronological`).

    "date" mode lists every recording from earliest to latest. Every other
    mode lists the recordings that carry a trail mile first, northernmost
    (highest mile) at the top, then the recordings without a mile from
    earliest to latest. */
module Playlist {
  import opened JsValues
  import opened Modes
  import opened TrailMiles
  import opened StableSort

  /** A recording as the playlist sees it. `originalIndex` is its position in
      the loaded data; `timestamp` is its recording time, already parsed to
      epoch milliseconds. */
  datatype Track = Track(originalIndex: nat, timestamp: int, mile: MileField)

  /** Tolerance under which two miles count as the same mile. */
  const SameMileTolerance: real := 0.01

  /** How many leading neighbour pairs `isCurrentlyChronological` inspects. */
  const ChronologyProbe: int := 5

  function HasMile(t: Track): bool
  {
    HasSortMile(t.mile)
  }

  function Mile(t: Track): real
  {
    SortMile(t.mile)
  }

  function Time(t: Track): real
  {
    t.timestamp as real
  }

  /** The comparator `new Date(a.timestamp) - new Date(b.timestamp)` is negative. */
  function Earlier(a: Track, b: Track): bool
  {
    a.timestamp < b.timestamp
  }

  /** The mile comparator is negative: miles within the tolerance compare by
      time, other miles by value. */
  function MileFirst(a: Track, b: Track): bool
  {
    if Abs(Mile(a) - Mile(b)) < SameMileTolerance then a.timestamp < b.timestamp
    else Mile(a) < Mile(b)
  }

  lemma ComparatorsAreAsymmetric()
    ensures Asymmetric(Earlier)
    ensures Asymmetric(MileFirst)
  {
  }

  /** The recordings with a mile, ascending by the mile comparator. */
  function AscendingByMile(data: seq<Track>): seq<Track>
  {
    InsertionSort(Filter(data, HasMile, true), MileFirst)
  }

  /** The recordings without a mile, earliest first. */
  function MilelessByTime(data: seq<Track>): seq<Track>
  {
    InsertionSort(Filter(data, HasMile, false), Earlier)
  }

  /** `sortByMileAndDate(data, mode)`: a rearrangement of the input, nothing
      lost and nothing duplicated; "date" mode orders it from earliest to
      latest recording. The layout of the other modes is `MileSortLayout`. */
  function SortByMileAndDate(data: seq<Track>, mode: SortMode): (r: seq<Track>)
    ensures multiset(r) == multiset(data)
    ensures mode == Date ==> SortedByKey(r, Time)
  {
    if mode == Date then
      TimeOrderFromComparator(data);
      InsertionSort(data, Earlier)
    else
      FilterSplits(data, HasMile);
      ReverseIsPermutation(AscendingByMile(data));
      Reverse(AscendingByMile(data)) + MilelessByTime(data)
  }

  lemma TimeOrderFromComparator(data: seq<Track>)
    ensures SortedByKey(InsertionSort(data, Earlier), Time)
  {
    var r := InsertionSort(data, Earlier);
    ComparatorsAreAsymmetric();
    SortIsAdjacentOrdered(data, Earlier);
    assert forall i :: 0 <= i < |r| - 1 ==> Time(r[i]) <= Time(r[i + 1]) by {
      forall i | 0 <= i < |r| - 1
        ensures Time(r[i]) <= Time(r[i + 1])
      {
        assert !Earlier(r[i + 1], r[i]);
      }
    }
    ChainedKeysAreSorted(r, Time);
  }

  /** Number of recordings that carry a mile: the length of the top block. */
  function MileBlock(data: seq<Track>): nat
  {
    |Filter(data, HasMile, true)|
  }

  /** Outside "date" mode, the recordings with a mile form the top block and
      the others the bottom block; the bottom block runs from earliest to
      latest; down the top block a mile never rises by the tolerance or more. */
  lemma MileSortLayout(data: seq<Track>, mode: SortMode)
    requires mode != Date
    ensures var r := SortByMileAndDate(data, mode);
            var k := MileBlock(data);
            && k <= |r|
            && (forall i :: 0 <= i < k ==> HasMile(r[i]))
            && (forall i :: k <= i < |r| ==> !HasMile(r[i]))
            && SortedByKey(r[k..], Time)
            && (forall i :: 0 <= i < k - 1 ==> Mile(r[i + 1]) < Mile(r[i]) + SameMileTolerance)
  {
    var r := SortByMileAndDate(data, mode);
    var up := AscendingByMile(data);
    SortedFilterAgrees(data, HasMile, true, MileFirst, up);
    SortedFilterAgrees(data, HasMile, false, Earlier, MilelessByTime(data));
    ReversedBlocksLayout(up, MilelessByTime(data), HasMile);
    TimeOrderFromComparator(Filter(data, HasMile, false));
    ComparatorsAreAsymmetric();
    SortIsAdjacentOrdered(Filter(data, HasMile, true), MileFirst);
    ReverseTurnsPairs(up, MileFirst);
    forall i | 0 <= i < |up| - 1
      ensures Mile(r[i + 1]) < Mile(r[i]) + SameMileTolerance
    {
      assert r[i] == Reverse(up)[i] && r[i + 1] == Reverse(up)[i + 1];
      NotFirstMeansWithinTolerance(r[i], r[i + 1]);
    }
  }

  lemma NotFirstMeansWithinTolerance(a: Track, b: Track)
    requires !MileFirst(a, b)
    ensures Mile(b) < Mile(a) + SameMileTolerance
  {
  }

  /** Any two recordings with a mile either share the mile exactly or lie at
      least the tolerance apart: the case where the mile comparator is a
      consistent order. */
  ghost predicate MilesSeparated(data: seq<Track>)
  {
    forall a, b {:trigger SameOrApart(a, b)} :: a in data && b in data ==> SameOrApart(a, b)
  }

  predicate SameOrApart(a: Track, b: Track)
  {
    HasMile(a) && HasMile(b) ==> Mile(a) == Mile(b) || Abs(Mile(a) - Mile(b)) >= SameMileTolerance
  }

  /** When miles are separated, the top block runs from the highest mile
      down, between every two positions. */
  lemma SeparatedMilesDescend(data: seq<Track>, mode: SortMode)
    requires mode != Date
    requires MilesSeparated(data)
    ensures forall i, j :: 0 <= i < j < MileBlock(data) ==>
              Mile(SortByMileAndDate(data, mode)[j]) <= Mile(SortByMileAndDate(data, mode)[i])
  {
    AscendingUnderSeparation(data);
    ReversedPrefixDescends(AscendingByMile(data), MilelessByTime(data), Mile);
  }

  /** Under separation the mile comparator orders the kept recordings by mile. */
  lemma AscendingUnderSeparation(data: seq<Track>)
    requires MilesSeparated(data)
    ensures SortedByKey(AscendingByMile(data), Mile)
  {
    var kept := Filter(data, HasMile, true);
    var up := InsertionSort(kept, MileFirst);
    ComparatorsAreAsymmetric();
    SortIsAdjacentOrdered(kept, MileFirst);
    SortKeepsMembers(kept, MileFirst);
    SortedFilterAgrees(data, HasMile, true, MileFirst, up);
    forall i | 0 <= i < |up| - 1
      ensures Mile(up[i]) <= Mile(up[i + 1])
    {
      assert up[i] in kept && up[i + 1] in kept;
      SeparatedNotFirst(data, up[i + 1], up[i]);
    }
    ChainedKeysAreSorted(up, Mile);
  }

  lemma SeparatedNotFirst(data: seq<Track>, a: Track, b: Track)
    requires MilesSeparated(data)
    requires a in data && b in data && HasMile(a) && HasMile(b)
    requires !MileFirst(a, b)
    ensures Mile(b) <= Mile(a)
  {
    assert SameOrApart(a, b);
  }

  /** Miles 10.000, 10.006 and 10.012 recorded at times 3, 2 and 1: each
      neighbouring pair is "the same mile" and compares by time, the outer
      pair compares by mile, so the comparator runs in a cycle. */
  lemma MileComparatorIsNotTransitive()
    ensures var a := Track(0, 3, Numeric(10.0));
            var b := Track(1, 2, Numeric(10.006));
            var c := Track(2, 1, Numeric(10.012));
            MileFirst(c, b) && MileFirst(b, a) && MileFirst(a, c)
  {
  }

  /** The neighbour pairs `isCurrentlyChronological` inspects are in time order. */
  ghost predicate LeadingPairsChronological(data: seq<Track>)
  {
    var probe := if ChronologyProbe < |data| - 1 then ChronologyProbe else |data| - 1;
    forall i :: 0 <= i < probe ==> data[i].timestamp <= data[i + 1].timestamp
  }

  /** `isCurrentlyChronological`: false for fewer than two recordings,
      otherwise whether the first `min(5, n - 1)` neighbour pairs are in time order. */
  method IsCurrentlyChronological(data: seq<Track>) returns (chronological: bool)
    ensures chronological <==> |data| >= 2 && LeadingPairsChronological(data)
  {
    if |data| < 2 {
      return false;
    }
    var probe := if ChronologyProbe < |data| - 1 then ChronologyProbe else |data| - 1;
    var i := 0;
    while i < probe
      invariant 0 <= i <= probe
      invariant forall j :: 0 <= j < i ==> data[j].timestamp <= data[j + 1].timestamp
    {
      if data[i].timestamp > data[i + 1].timestamp {
        return false;
      }
      i := i + 1;
    }
    return true;
  }

  /** A list sorted in "date" mode is recognised as chronological. */
  lemma DateSortLooksChronological(data: seq<Track>)
    requires |data| >= 2
    ensures LeadingPairsChronological(SortByMileAndDate(data, Date))
  {
    var r := SortByMileAndDate(data, Date);
    forall i | 0 <= i < |r| - 1
      ensures r[i].timestamp <= r[i + 1].timestamp
    {
      assert Time(r[i]) <= Time(r[i + 1]);
    }
  }
}
