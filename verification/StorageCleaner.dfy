/** The storage cleaner (s3_storage_manager.py): buckets past an age limit are deleted, and then, if
    the rest takes too much room, the oldest of the rest. Times are whole seconds. */
module StorageCleaner {
  import opened Text
  import opened Bags

  datatype Object = Object(name: string, size: nat, lastModified: int)

  datatype BucketInfo = BucketInfo(name: string, size: nat, lastModified: int)

  const DAY := 86400

  /** Whole days, rounded down, as `timedelta.days` gives them. */
  function AgeInDays(b: BucketInfo, now: int): int {
    (now - b.lastModified) / DAY
  }

  predicate TooOld(b: BucketInfo, now: int, maxAge: int) {
    AgeInDays(b, now) > maxAge
  }

  /** A bucket is past the limit once it is one whole day older than the limit. */
  lemma TooOldBySeconds(b: BucketInfo, now: int, maxAge: int)
    ensures TooOld(b, now, maxAge) <==> now - b.lastModified >= (maxAge + 1) * DAY
  {
  }

  function TotalSize(buckets: seq<BucketInfo>): nat {
    if buckets == [] then 0 else buckets[0].size + TotalSize(buckets[1..])
  }

  function Names(buckets: seq<BucketInfo>): seq<string> {
    Map((b: BucketInfo) => b.name, buckets)
  }

  /** The buckets past the age limit, or those within it, in their given order. */
  function ByAge(buckets: seq<BucketInfo>, now: int, maxAge: int, past: bool): (r: seq<BucketInfo>)
    ensures forall i :: 0 <= i < |r| ==> TooOld(r[i], now, maxAge) == past
  {
    if buckets == [] then []
    else
      var front := ByAge(buckets[..|buckets| - 1], now, maxAge, past);
      var last := buckets[|buckets| - 1];
      if TooOld(last, now, maxAge) == past then front + [last] else front
  }

  // ---------------------------------------------------------------- bucket size and date

  /** An object whose name ends in a slash stands for a bucket within the bucket. */
  predicate Counts(o: Object) {
    o.name == "" || o.name[|o.name| - 1] != '/'
  }

  function SizeOf(objects: seq<Object>): nat {
    if objects == [] then 0
    else SizeOf(objects[..|objects| - 1])
         + if Counts(objects[|objects| - 1]) then objects[|objects| - 1].size else 0
  }

  /** The size of a bucket is the sum of the sizes of its objects, but for those called like a nested bucket. */
  lemma {:induction false} SizeCounts(a: seq<Object>, o: Object, b: seq<Object>)
    ensures SizeOf([]) == 0
    ensures SizeOf(a + [o] + b) ==
      SizeOf(a + b) + if o.name != "" && o.name[|o.name| - 1] == '/' then 0 else o.size
  {
    if b == [] {
      assert a + [o] + b == a + [o] && a + b == a;
      SizeSnoc(a, o);
    } else {
      var front, last := b[..|b| - 1], b[|b| - 1];
      SizeCounts(a, o, front);
      SizeSnoc(a + [o] + front, last);
      SizeSnoc(a + front, last);
      assert a + [o] + b == a + [o] + front + [last] && a + b == a + front + [last];
    }
  }

  lemma SizeSnoc(front: seq<Object>, last: Object)
    ensures SizeOf(front + [last]) == SizeOf(front) + if Counts(last) then last.size else 0
  {
    assert (front + [last])[..|front|] == front;
  }

  method GetBucketInfo(bucket: string, objects: seq<Object>, now: int) returns (info: BucketInfo)
    requires forall i :: 0 <= i < |objects| ==> objects[i].name != ""
    ensures info.name == bucket && info.size == SizeOf(objects)
    ensures info.lastModified <= now
    ensures forall i :: 0 <= i < |objects| && Counts(objects[i]) ==> info.lastModified <= objects[i].lastModified
    ensures info.lastModified == now
      || exists i :: 0 <= i < |objects| && Counts(objects[i]) && info.lastModified == objects[i].lastModified
  {
    var size := 0;
    var lastModified := now;
    var k := 0;
    while k < |objects|
      invariant 0 <= k <= |objects|
      invariant size == SizeOf(objects[..k])
      invariant lastModified <= now
      invariant forall i :: 0 <= i < k && Counts(objects[i]) ==> lastModified <= objects[i].lastModified
      invariant lastModified == now
        || exists i :: 0 <= i < k && Counts(objects[i]) && lastModified == objects[i].lastModified
    {
      var obj := objects[k];
      assert objects[..k + 1][..k] == objects[..k];
      k := k + 1;
      if obj.name[|obj.name| - 1] == '/' {
        continue;
      }
      size := size + obj.size;
      if obj.lastModified < lastModified {
        lastModified := obj.lastModified;
      }
    }
    assert objects[..|objects|] == objects;
    return BucketInfo(bucket, size, lastModified);
  }

  // ---------------------------------------------------------------- sorting by date

  predicate Sorted(buckets: seq<BucketInfo>) {
    forall i, j :: 0 <= i < j < |buckets| ==> buckets[i].lastModified <= buckets[j].lastModified
  }

  /** Puts `b` behind all buckets of the same date. */
  function Insert(b: BucketInfo, buckets: seq<BucketInfo>): seq<BucketInfo> {
    if buckets == [] || buckets[|buckets| - 1].lastModified <= b.lastModified then buckets + [b]
    else Insert(b, buckets[..|buckets| - 1]) + [buckets[|buckets| - 1]]
  }

  /** The stable order by date, oldest first. */
  function SortByDate(buckets: seq<BucketInfo>): seq<BucketInfo> {
    if buckets == [] then []
    else Insert(buckets[|buckets| - 1], SortByDate(buckets[..|buckets| - 1]))
  }

  lemma {:induction false} InsertSorts(b: BucketInfo, buckets: seq<BucketInfo>)
    requires Sorted(buckets)
    ensures Sorted(Insert(b, buckets))
  {
    if !(buckets == [] || buckets[|buckets| - 1].lastModified <= b.lastModified) {
      var front, last := buckets[..|buckets| - 1], buckets[|buckets| - 1];
      InsertSorts(b, front);
      InsertAdds(b, front);
      var inserted := Insert(b, front);
      forall i | 0 <= i < |inserted| ensures inserted[i].lastModified <= last.lastModified {
        assert inserted[i] in multiset(inserted);
        assert inserted[i] == b || inserted[i] in front;
      }
    }
  }

  lemma {:induction false} InsertAdds(b: BucketInfo, buckets: seq<BucketInfo>)
    ensures multiset(Insert(b, buckets)) == multiset(buckets) + multiset{b}
  {
    if !(buckets == [] || buckets[|buckets| - 1].lastModified <= b.lastModified) {
      InsertAdds(b, buckets[..|buckets| - 1]);
      assert buckets == buckets[..|buckets| - 1] + [buckets[|buckets| - 1]];
    }
  }

  lemma {:induction false} SortIsPermutation(buckets: seq<BucketInfo>)
    ensures Sorted(SortByDate(buckets)) && multiset(SortByDate(buckets)) == multiset(buckets)
  {
    if buckets != [] {
      var front, last := buckets[..|buckets| - 1], buckets[|buckets| - 1];
      SortIsPermutation(front);
      InsertSorts(last, SortByDate(front));
      InsertAdds(last, SortByDate(front));
      assert buckets == front + [last];
    }
  }

  function OfDate(buckets: seq<BucketInfo>, date: int): seq<BucketInfo> {
    if buckets == [] then []
    else
      OfDate(buckets[..|buckets| - 1], date)
      + if buckets[|buckets| - 1].lastModified == date then [buckets[|buckets| - 1]] else []
  }

  lemma OfDateSnoc(front: seq<BucketInfo>, last: BucketInfo, date: int)
    ensures OfDate(front + [last], date) == OfDate(front, date) + if last.lastModified == date then [last] else []
  {
    assert (front + [last])[..|front|] == front;
  }

  /** The order of two neighbours of different dates does not show within one date. */
  lemma OfDateSwap(front: seq<BucketInfo>, a: BucketInfo, b: BucketInfo, date: int)
    requires a.lastModified != b.lastModified
    ensures OfDate(front + [a] + [b], date) == OfDate(front + [b] + [a], date)
  {
    OfDateSnoc(front + [a], b, date);
    OfDateSnoc(front, a, date);
    OfDateSnoc(front + [b], a, date);
    OfDateSnoc(front, b, date);
  }

  lemma InsertBefore(b: BucketInfo, inserted: seq<BucketInfo>, front: seq<BucketInfo>, last: BucketInfo, date: int)
    requires b.lastModified < last.lastModified && OfDate(inserted, date) == OfDate(front + [b], date)
    ensures OfDate(inserted + [last], date) == OfDate(front + [last] + [b], date)
  {
    OfDateSnoc(inserted, last, date);
    OfDateSnoc(front + [b], last, date);
    OfDateSwap(front, b, last, date);
  }

  lemma {:induction false} InsertKeepsOrder(b: BucketInfo, buckets: seq<BucketInfo>, date: int)
    ensures OfDate(Insert(b, buckets), date) == OfDate(buckets + [b], date)
  {
    if !(buckets == [] || buckets[|buckets| - 1].lastModified <= b.lastModified) {
      var front, last := buckets[..|buckets| - 1], buckets[|buckets| - 1];
      InsertKeepsOrder(b, front, date);
      InsertBefore(b, Insert(b, front), front, last, date);
      assert front + [last] == buckets;
    }
  }

  /** Buckets of one date keep the order in which they were listed. */
  lemma {:induction false} SortIsStable(buckets: seq<BucketInfo>, date: int)
    ensures OfDate(SortByDate(buckets), date) == OfDate(buckets, date)
  {
    if buckets != [] {
      var front, last := buckets[..|buckets| - 1], buckets[|buckets| - 1];
      SortIsStable(front, date);
      InsertKeepsOrder(last, SortByDate(front), date);
      OfDateSnoc(SortByDate(front), last, date);
    }
  }

  // ---------------------------------------------------------------- eviction

  lemma {:induction false} TotalOfConcat(a: seq<BucketInfo>, b: seq<BucketInfo>)
    ensures TotalSize(a + b) == TotalSize(a) + TotalSize(b)
  {
    if a == [] {
      assert a + b == b;
    } else {
      TotalOfConcat(a[1..], b);
      assert (a + b)[1..] == a[1..] + b;
    }
  }

  lemma TotalOfOne(b: BucketInfo)
    ensures TotalSize([]) == 0 && TotalSize([b]) == b.size
  {
  }

  lemma TotalWithout(buckets: seq<BucketInfo>, k: nat)
    requires k < |buckets|
    ensures TotalSize(buckets) == buckets[k].size + TotalSize(Without(buckets, k))
  {
    assert buckets == buckets[..k] + buckets[k..];
    assert buckets[k..][1..] == buckets[k + 1..];
    TotalOfConcat(buckets[..k], buckets[k..]);
    TotalOfConcat(buckets[..k], buckets[k + 1..]);
  }

  lemma {:induction false} TotalPermutes(a: seq<BucketInfo>, b: seq<BucketInfo>)
    requires multiset(a) == multiset(b)
    ensures TotalSize(a) == TotalSize(b)
  {
    SameSize(a, b);
    if a != [] {
      assert a[0] in multiset(b);
      var k :| 0 <= k < |b| && b[k] == a[0];
      WithoutIsLess(a, 0);
      WithoutIsLess(b, k);
      assert multiset(Without(a, 0)) == multiset(a) - multiset{a[0]};
      assert multiset(Without(b, k)) == multiset(b) - multiset{b[k]};
      TotalPermutes(Without(a, 0), Without(b, k));
      TotalWithout(a, 0);
      TotalWithout(b, k);
    }
  }

  /** Number of buckets to remove from the front of `sorted`: none if they fit, else as many as it takes. */
  function Removed(sorted: seq<BucketInfo>, maxSize: int, normSize: int): nat {
    if TotalSize(sorted) > maxSize then Excess(sorted, normSize) else 0
  }

  function Excess(sorted: seq<BucketInfo>, normSize: int): nat {
    if sorted == [] || TotalSize(sorted) <= normSize then 0 else 1 + Excess(sorted[1..], normSize)
  }

  /** The removed prefix is the shortest that brings the rest to `normSize` or below, or everything. */
  lemma {:induction false} ExcessIsShortest(sorted: seq<BucketInfo>, normSize: int)
    ensures var n := Excess(sorted, normSize);
      && n <= |sorted|
      && (TotalSize(sorted[n..]) <= normSize || n == |sorted|)
      && forall k :: 0 <= k < n ==> TotalSize(sorted[k..]) > normSize
  {
    if sorted != [] && TotalSize(sorted) > normSize {
      ExcessIsShortest(sorted[1..], normSize);
      var n := Excess(sorted, normSize);
      assert sorted[1..][n - 1..] == sorted[n..];
      forall k | 0 <= k < n ensures TotalSize(sorted[k..]) > normSize {
        if k > 0 {
          assert sorted[1..][k - 1..] == sorted[k..];
        }
      }
    }
  }

  /** Whether `k` buckets are enough can be told from what is left after them. */
  lemma ExcessAt(sorted: seq<BucketInfo>, normSize: int, k: nat)
    requires k <= Excess(sorted, normSize) <= |sorted|
    ensures k == Excess(sorted, normSize) <==> TotalSize(sorted[k..]) <= normSize || k == |sorted|
  {
    ExcessIsShortest(sorted, normSize);
  }

  /** Eviction by size, as a whole: a shortest prefix of the oldest goes, no survivor is older than
      what was removed, and the survivors fit. */
  lemma EvictionIsMinimal(kept: seq<BucketInfo>, maxSize: int, normSize: int)
    ensures var sorted := SortByDate(kept);
      var n := Removed(sorted, maxSize, normSize);
      && n <= |sorted| == |kept|
      && (n == 0 <==> TotalSize(kept) <= maxSize || TotalSize(kept) <= normSize || kept == [])
      && (n > 0 ==> (TotalSize(sorted[n..]) <= normSize || n == |sorted|)
                    && forall k :: 0 <= k < n ==> TotalSize(sorted[k..]) > normSize)
      && (forall i, j :: 0 <= i < n <= j < |sorted| ==> sorted[i].lastModified <= sorted[j].lastModified)
      && (normSize >= 0 ==>
            TotalSize(sorted[n..]) <= if maxSize > normSize then maxSize else normSize)
  {
    var sorted := SortByDate(kept);
    SortIsPermutation(kept);
    SameSize(sorted, kept);
    TotalPermutes(sorted, kept);
    ExcessIsShortest(sorted, normSize);
    assert sorted[0..] == sorted;
    var n := Removed(sorted, maxSize, normSize);
    if n == |sorted| {
      assert sorted[n..] == [];
    }
  }

  /** A lower target only lengthens the removed prefix. */
  lemma {:induction false} ExcessIsMonotone(sorted: seq<BucketInfo>, normSize: int, lower: int)
    requires lower <= normSize
    ensures Excess(sorted, normSize) <= Excess(sorted, lower)
  {
    if sorted != [] && TotalSize(sorted) > normSize {
      ExcessIsMonotone(sorted[1..], normSize, lower);
    }
  }

  lemma RemovedIsMonotone(kept: seq<BucketInfo>, maxSize: int, normSize: int, lower: int)
    requires lower <= normSize
    ensures var sorted := SortByDate(kept);
      Removed(sorted, maxSize, normSize) <= Removed(sorted, maxSize, lower)
  {
    ExcessIsMonotone(SortByDate(kept), normSize, lower);
  }

  // ---------------------------------------------------------------- what is removed

  /** The limits of a cleanup and the moment at which it runs. */
  datatype Limits = Limits(maxSize: int, normSize: int, maxAge: int, now: int)

  function Past(buckets: seq<BucketInfo>, l: Limits): seq<BucketInfo> {
    ByAge(buckets, l.now, l.maxAge, true)
  }

  /** The buckets within the age limit, oldest first. */
  function Kept(buckets: seq<BucketInfo>, l: Limits): seq<BucketInfo> {
    SortByDate(ByAge(buckets, l.now, l.maxAge, false))
  }

  function Evicted(buckets: seq<BucketInfo>, l: Limits): (n: nat)
    ensures n <= |Kept(buckets, l)|
  {
    ExcessIsShortest(Kept(buckets, l), l.normSize);
    Removed(Kept(buckets, l), l.maxSize, l.normSize)
  }

  /** Everything that a cleanup tries to delete. */
  function Victims(buckets: seq<BucketInfo>, l: Limits): seq<BucketInfo> {
    Past(buckets, l) + Kept(buckets, l)[..Evicted(buckets, l)]
  }

  function Survivors(buckets: seq<BucketInfo>, l: Limits): seq<BucketInfo> {
    Kept(buckets, l)[Evicted(buckets, l)..]
  }

  function NameSet(buckets: seq<BucketInfo>): set<string> {
    set b | b in buckets :: b.name
  }

  /** The buckets whose names are in `names`, or those whose names are not. */
  function Choose(buckets: seq<BucketInfo>, names: set<string>, inside: bool): (r: seq<BucketInfo>)
    ensures forall b :: b in r ==> b in buckets && (b.name in names) == inside
  {
    if buckets == [] then []
    else
      var front := Choose(buckets[..|buckets| - 1], names, inside);
      var last := buckets[|buckets| - 1];
      if (last.name in names) == inside then front + [last] else front
  }

  lemma {:induction false} ChooseBag(buckets: seq<BucketInfo>, names: set<string>, inside: bool, b: BucketInfo)
    ensures multiset(Choose(buckets, names, inside))[b] ==
      if (b.name in names) == inside then multiset(buckets)[b] else 0
  {
    if buckets != [] {
      ChooseBag(buckets[..|buckets| - 1], names, inside, b);
      assert buckets == buckets[..|buckets| - 1] + [buckets[|buckets| - 1]];
    }
  }

  /** What is left of a bucket of which not all objects can be removed. */
  datatype Rest = Rest(size: nat, lastModified: int)

  /** The buckets that cannot be removed, by name. */
  type Stuck = map<string, Rest>

  /** A stuck bucket loses the objects that can be removed; the oldest of the rest gives its date. */
  function Shrunk(stuck: Stuck, b: BucketInfo): BucketInfo {
    if b.name in stuck then
      var rest := stuck[b.name];
      BucketInfo(b.name, if rest.size < b.size then rest.size else b.size,
                 if rest.lastModified > b.lastModified then rest.lastModified else b.lastModified)
    else b
  }

  /** The store after the buckets in `names` were deleted as far as that is possible. */
  function Deleting(buckets: seq<BucketInfo>, names: set<string>, stuck: Stuck): seq<BucketInfo> {
    if buckets == [] then []
    else
      var front := Deleting(buckets[..|buckets| - 1], names, stuck);
      var last := buckets[|buckets| - 1];
      if last.name !in names then front + [last]
      else if last.name in stuck then front + [Shrunk(stuck, last)]
      else front
  }

  lemma DeletingSnoc(front: seq<BucketInfo>, last: BucketInfo, names: set<string>, stuck: Stuck)
    ensures Deleting(front + [last], names, stuck) == Deleting(front, names, stuck) +
      if last.name !in names then [last] else if last.name in stuck then [Shrunk(stuck, last)] else []
  {
    assert (front + [last])[..|front|] == front;
  }

  lemma {:induction false} DeletingTwice(buckets: seq<BucketInfo>, a: set<string>, b: set<string>, stuck: Stuck)
    ensures Deleting(Deleting(buckets, a, stuck), b, stuck) == Deleting(buckets, a + b, stuck)
  {
    if buckets != [] {
      var front, last := buckets[..|buckets| - 1], buckets[|buckets| - 1];
      DeletingTwice(front, a, b, stuck);
      if last.name !in a {
        DeletingSnoc(Deleting(front, a, stuck), last, b, stuck);
      } else if last.name in stuck {
        DeletingSnoc(Deleting(front, a, stuck), Shrunk(stuck, last), b, stuck);
      }
    }
  }

  lemma {:induction false} DeletingNothing(buckets: seq<BucketInfo>, names: set<string>, stuck: Stuck)
    requires forall b :: b in buckets ==> b.name !in names
    ensures Deleting(buckets, names, stuck) == buckets
  {
    if buckets != [] {
      DeletingNothing(buckets[..|buckets| - 1], names, stuck);
      assert buckets == buckets[..|buckets| - 1] + [buckets[|buckets| - 1]];
    }
  }

  lemma DeletingNext(buckets: seq<BucketInfo>, items: seq<BucketInfo>, k: nat, stuck: Stuck)
    requires k < |items|
    ensures Deleting(Deleting(buckets, NameSet(items[..k]), stuck), {items[k].name}, stuck)
         == Deleting(buckets, NameSet(items[..k + 1]), stuck)
  {
    DeletingTwice(buckets, NameSet(items[..k]), {items[k].name}, stuck);
    assert items[..k + 1] == items[..k] + [items[k]];
    assert NameSet(items[..k + 1]) == NameSet(items[..k]) + {items[k].name};
  }

  /** What is left is the buckets that were not asked for, and the rest of those that are stuck. */
  lemma {:induction false} DeletingBag(buckets: seq<BucketInfo>, names: set<string>, stuck: Stuck)
    ensures multiset(Deleting(buckets, names, stuck)) == multiset(Choose(buckets, names, false))
      + multiset(Map((b: BucketInfo) => Shrunk(stuck, b), Choose(buckets, names * stuck.Keys, true)))
  {
    if buckets != [] {
      var front, last := buckets[..|buckets| - 1], buckets[|buckets| - 1];
      DeletingBag(front, names, stuck);
      var shrink := (b: BucketInfo) => Shrunk(stuck, b);
      var rest := Choose(front, names * stuck.Keys, true);
      assert Map(shrink, rest + [last]) == Map(shrink, rest) + [Shrunk(stuck, last)];
    }
  }

  lemma PrefixNext(items: seq<BucketInfo>, k: nat)
    requires k < |items|
    ensures TotalSize(items[k..]) == items[k].size + TotalSize(items[k + 1..])
    ensures items[k..][1..] == items[k + 1..]
    ensures Names(items[..k + 1]) == Names(items[..k]) + [items[k].name]
  {
  }

  lemma ChosenNames(items: seq<BucketInfo>, names: set<string>, k: nat)
    requires k < |items|
    ensures Names(Choose(items[..k + 1], names, false))
         == Names(Choose(items[..k], names, false)) + if items[k].name in names then [] else [items[k].name]
  {
    assert items[..k + 1][..k] == items[..k];
  }

  // ---------------------------------------------------------------- the cleaner

  datatype Deletion = Deleted | Refused | Raised

  /** The object store: its buckets, what will be left of those that it does not manage to delete, and
      the names of those whose deletion raises an exception, having done its work or not. */
  class S3StorageManager {
    const stuck: Stuck
    const raising: set<string>
    var buckets: seq<BucketInfo>

    constructor (buckets: seq<BucketInfo>, stuck: Stuck, raising: set<string>)
      ensures this.buckets == buckets && this.stuck == stuck && this.raising == raising
    {
      this.buckets, this.stuck, this.raising := buckets, stuck, raising;
    }

    /** A bucket that is not there counts as deleted; of one that is stuck what can be removed goes. */
    method DeleteBucket(name: string) returns (deletion: Deletion)
      modifies this`buckets
      ensures deletion ==
        if name in raising then Raised
        else if name in stuck && name in NameSet(old(buckets)) then Refused
        else Deleted
      ensures buckets == Deleting(old(buckets), {name}, stuck)
    {
      if name !in NameSet(buckets) {
        DeletingNothing(buckets, {name}, stuck);
        return if name in raising then Raised else Deleted;
      }
      buckets := Deleting(buckets, {name}, stuck);
      return if name in raising then Raised else if name in stuck then Refused else Deleted;
    }

    /** Splits the listed buckets by age. */
    method Partition(l: Limits) returns (past: seq<BucketInfo>, kept: seq<BucketInfo>)
      ensures past == Past(buckets, l)
      ensures kept == ByAge(buckets, l.now, l.maxAge, false)
    {
      past, kept := [], [];
      var k := 0;
      while k < |buckets|
        invariant 0 <= k <= |buckets|
        invariant past == Past(buckets[..k], l)
        invariant kept == ByAge(buckets[..k], l.now, l.maxAge, false)
      {
        assert buckets[..k + 1][..k] == buckets[..k];
        var bucketAge := AgeInDays(buckets[k], l.now);
        if bucketAge > l.maxAge {
          past := past + [buckets[k]];
        } else {
          kept := kept + [buckets[k]];
        }
        k := k + 1;
      }
      assert buckets[..|buckets|] == buckets;
    }

    /** Deletes the old buckets, in the order in which their deletions finish. */
    method DeleteOld(past: seq<BucketInfo>) returns (cleaned: seq<string>)
      requires forall b :: b in past ==> b in buckets
      modifies this`buckets
      ensures cleaned == Names(Choose(past, stuck.Keys + raising, false))
      ensures buckets == Deleting(old(buckets), NameSet(past), stuck)
    {
      cleaned := [];
      DeletingNothing(buckets, NameSet([]), stuck);
      var k := 0;
      while k < |past|
        invariant 0 <= k <= |past|
        invariant cleaned == Names(Choose(past[..k], stuck.Keys + raising, false))
        invariant buckets == Deleting(old(buckets), NameSet(past[..k]), stuck)
      {
        var name := past[k].name;
        assert name in stuck ==> name in NameSet(buckets) by {
          if name in stuck {
            StuckStays(old(buckets), past[k], NameSet(past[..k]), stuck);
          }
        }
        var deletion := DeleteBucket(name);
        ChosenNames(past, stuck.Keys + raising, k);
        DeletingNext(old(buckets), past, k, stuck);
        if deletion.Deleted? {
          cleaned := cleaned + [name];
        }
        k := k + 1;
      }
      assert past[..|past|] == past;
    }

    /** Deletes the oldest buckets while the rest is larger than `normSize`; an exception ends it. */
    method Evict(kept: seq<BucketInfo>, normSize: int) returns (size: int, cleaned: seq<string>, raised: bool)
      modifies this`buckets
      ensures Excess(kept, normSize) <= |kept|
      ensures var n := Excess(kept, normSize);
        && raised == (FirstIn(kept[..n], raising) < n)
        && (!raised ==> size == TotalSize(kept[n..]) && cleaned == Names(kept[..n]))
        && buckets == Deleting(old(buckets), NameSet(kept[..UpTo(kept[..n], raising)]), stuck)
    {
      ghost var n := Excess(kept, normSize);
      ExcessIsShortest(kept, normSize);
      var currentSize, idx := TotalSize(kept), 0;
      cleaned, raised := [], false;
      assert kept[0..] == kept;
      DeletingNothing(buckets, NameSet(kept[..0]), stuck);
      ExcessAt(kept, normSize, 0);
      while currentSize > normSize && idx < |kept|
        invariant 0 <= idx <= n <= |kept| && (idx == n <==> currentSize <= normSize || idx == |kept|)
        invariant currentSize == TotalSize(kept[idx..])
        invariant cleaned == Names(kept[..idx])
        invariant forall i :: 0 <= i < idx ==> kept[i].name !in raising
        invariant buckets == Deleting(old(buckets), NameSet(kept[..idx]), stuck)
      {
        var bucket := kept[idx];
        var deletion := DeleteBucket(bucket.name);
        DeletingNext(old(buckets), kept, idx, stuck);
        PrefixNext(kept, idx);
        ExcessAt(kept, normSize, idx + 1);
        if deletion.Raised? {
          FirstInPrefix(kept, n, raising, idx);
          return currentSize, cleaned, true;
        }
        cleaned, currentSize, idx := cleaned + [bucket.name], currentSize - bucket.size, idx + 1;
      }
      FirstInPrefix(kept, n, raising, n);
      size := currentSize;
    }

    /** Returns the size that is planned to be left and the names of the buckets counted as removed, or
        nothing if evicting a bucket raises, which ends the cleanup there. The old buckets are
        deleted concurrently; `order` has them as their deletions finish. */
    method CleanupStorage(l: Limits, order: seq<BucketInfo>) returns (result: Option<(int, seq<string>)>)
      requires multiset(order) == multiset(Past(buckets, l))
      modifies this`buckets
      ensures var evicted := Kept(old(buckets), l)[..Evicted(old(buckets), l)];
        && (result.None? <==> exists b :: b in evicted && b.name in raising)
        && (result.Some? ==>
              && result.value.0 == TotalSize(Survivors(old(buckets), l))
              && result.value.1 == Names(Choose(order, stuck.Keys + raising, false)) + Names(evicted)
              && buckets == Deleting(old(buckets), NameSet(Victims(old(buckets), l)), stuck))
        && (result.None? ==>
              buckets == Deleting(old(buckets),
                NameSet(Past(old(buckets), l) + evicted[..UpTo(evicted, raising)]), stuck))
    {
      var past, kept := Partition(l);
      ByAgeWithin(buckets, l, true);
      SameBag(order, past);
      var cleaned := DeleteOld(order);
      kept := SortByDate(kept);
      var size := TotalSize(kept);
      ghost var n := Evicted(old(buckets), l);
      ghost var evicted := kept[..n];
      FirstInExists(evicted, raising);
      if size > l.maxSize {
        var more, raised;
        size, more, raised := Evict(kept, l.normSize);
        DeletedBoth(old(buckets), past, kept, n, UpTo(evicted, raising), stuck);
        if raised {
          return None;
        }
        assert evicted[..UpTo(evicted, raising)] == evicted;
        cleaned := cleaned + more;
      } else {
        NothingEvicted(past, kept, n);
      }
      return Some((size, cleaned));
    }
  }

  /** Position of the first bucket whose name is in `names`, or the number of buckets. */
  function FirstIn(buckets: seq<BucketInfo>, names: set<string>): (i: nat)
    ensures i <= |buckets|
  {
    if buckets == [] || buckets[0].name in names then 0 else 1 + FirstIn(buckets[1..], names)
  }

  /** How many buckets are tried up to and including the first one in `names`. */
  function UpTo(buckets: seq<BucketInfo>, names: set<string>): (n: nat)
    ensures n <= |buckets|
  {
    if FirstIn(buckets, names) < |buckets| then FirstIn(buckets, names) + 1 else |buckets|
  }

  lemma {:induction false} FirstInIs(buckets: seq<BucketInfo>, names: set<string>, i: nat)
    requires i <= |buckets| && forall k :: 0 <= k < i ==> buckets[k].name !in names
    requires i < |buckets| ==> buckets[i].name in names
    ensures FirstIn(buckets, names) == i
  {
    if i > 0 {
      FirstInIs(buckets[1..], names, i - 1);
    }
  }

  lemma FirstInPrefix(buckets: seq<BucketInfo>, n: nat, names: set<string>, i: nat)
    requires i <= n <= |buckets| && forall k :: 0 <= k < i ==> buckets[k].name !in names
    requires i < n ==> buckets[i].name in names
    ensures FirstIn(buckets[..n], names) == i && UpTo(buckets[..n], names) == if i < n then i + 1 else n
  {
    FirstInIs(buckets[..n], names, i);
  }

  lemma {:induction false} FirstInExists(buckets: seq<BucketInfo>, names: set<string>)
    ensures FirstIn(buckets, names) < |buckets| <==> exists b :: b in buckets && b.name in names
  {
    if buckets != [] {
      FirstInExists(buckets[1..], names);
      assert forall b :: b in buckets <==> b == buckets[0] || b in buckets[1..];
    }
  }

  lemma SameBag(a: seq<BucketInfo>, b: seq<BucketInfo>)
    requires multiset(a) == multiset(b)
    ensures NameSet(a) == NameSet(b) && forall x :: x in a <==> x in b
  {
    forall x ensures x in a <==> x in b {
      assert x in multiset(a) <==> x in multiset(b);
    }
  }

  lemma DeletedBoth(buckets: seq<BucketInfo>, past: seq<BucketInfo>, kept: seq<BucketInfo>, n: nat, m: nat, stuck: Stuck)
    requires m <= n <= |kept|
    ensures Deleting(Deleting(buckets, NameSet(past), stuck), NameSet(kept[..m]), stuck)
         == Deleting(buckets, NameSet(past + kept[..n][..m]), stuck)
  {
    assert kept[..n][..m] == kept[..m];
    DeletingTwice(buckets, NameSet(past), NameSet(kept[..m]), stuck);
    NamesOfConcat(past, kept[..m]);
  }

  lemma NothingEvicted(past: seq<BucketInfo>, kept: seq<BucketInfo>, n: nat)
    requires n == 0
    ensures past + kept[..n] == past && kept[..n] == [] && kept[n..] == kept
  {
  }

  lemma NamesOfConcat(a: seq<BucketInfo>, b: seq<BucketInfo>)
    ensures NameSet(a + b) == NameSet(a) + NameSet(b)
  {
  }

  /** After a deletion a bucket that was not asked for is as it was; of one that was asked for nothing is
      there, unless it is stuck: then exactly what could not be removed of it. */
  lemma {:induction false} AfterDeletion(buckets: seq<BucketInfo>, names: set<string>, stuck: Stuck, b: BucketInfo)
    requires b in buckets
    ensures b.name !in names ==> b in Deleting(buckets, names, stuck)
    ensures b.name in names && b.name !in stuck ==> b.name !in NameSet(Deleting(buckets, names, stuck))
    ensures b.name in names && b.name in stuck ==>
      (stuck[b.name].size <= b.size && stuck[b.name].lastModified >= b.lastModified ==>
         BucketInfo(b.name, stuck[b.name].size, stuck[b.name].lastModified) in Deleting(buckets, names, stuck))
  {
    var front, last := buckets[..|buckets| - 1], buckets[|buckets| - 1];
    DeletingSnoc(front, last, names, stuck);
    assert buckets == front + [last];
    if b.name in names && b.name !in stuck {
      NoneOfName(buckets, names, stuck, b.name);
    } else if b in front {
      AfterDeletion(front, names, stuck, b);
    }
  }

  lemma {:induction false} NoneOfName(buckets: seq<BucketInfo>, names: set<string>, stuck: Stuck, name: string)
    requires name in names && name !in stuck
    ensures name !in NameSet(Deleting(buckets, names, stuck))
  {
    if buckets != [] {
      NoneOfName(buckets[..|buckets| - 1], names, stuck, name);
    }
  }

  /** A stuck bucket is still there under its name. */
  lemma {:induction false} StuckStays(buckets: seq<BucketInfo>, b: BucketInfo, names: set<string>, stuck: Stuck)
    requires b in buckets && b.name in stuck
    ensures b.name in NameSet(Deleting(buckets, names, stuck))
  {
    var front, last := buckets[..|buckets| - 1], buckets[|buckets| - 1];
    var left := Deleting(buckets, names, stuck);
    if b == last {
      assert left[|left| - 1] in left;
    } else {
      StuckStays(front, b, names, stuck);
      var c :| c in Deleting(front, names, stuck) && c.name == b.name;
      assert c in left;
    }
  }

  lemma {:induction false} ByAgeWithin(buckets: seq<BucketInfo>, l: Limits, past: bool)
    ensures forall b :: b in ByAge(buckets, l.now, l.maxAge, past) ==> b in buckets
  {
    if buckets != [] {
      ByAgeWithin(buckets[..|buckets| - 1], l, past);
    }
  }

  // ---------------------------------------------------------------- what is promised

  predicate UniqueNames(buckets: seq<BucketInfo>) {
    forall i, j :: 0 <= i < j < |buckets| ==> buckets[i].name != buckets[j].name
  }

  lemma {:induction false} ByAgePartitions(buckets: seq<BucketInfo>, now: int, maxAge: int)
    ensures multiset(ByAge(buckets, now, maxAge, true)) + multiset(ByAge(buckets, now, maxAge, false))
         == multiset(buckets)
  {
    if buckets != [] {
      ByAgePartitions(buckets[..|buckets| - 1], now, maxAge);
      assert buckets == buckets[..|buckets| - 1] + [buckets[|buckets| - 1]];
    }
  }

  /** A cleanup splits the buckets into victims and survivors. */
  lemma VictimsAndSurvivors(buckets: seq<BucketInfo>, l: Limits)
    ensures multiset(Victims(buckets, l)) + multiset(Survivors(buckets, l)) == multiset(buckets)
  {
    var kept, n := Kept(buckets, l), Evicted(buckets, l);
    ByAgePartitions(buckets, l.now, l.maxAge);
    SortIsPermutation(ByAge(buckets, l.now, l.maxAge, false));
    assert kept == kept[..n] + kept[n..];
  }

  lemma UniqueInBag(buckets: seq<BucketInfo>, b: BucketInfo, c: BucketInfo)
    requires UniqueNames(buckets) && b in buckets && c in buckets && b.name == c.name
    ensures b == c && multiset(buckets)[b] == 1
  {
    var i :| 0 <= i < |buckets| && buckets[i] == b;
    DistinctMultiplicity(buckets, b);
  }

  /** The buckets that are no victims are the survivors. */
  lemma SurvivorsAreRest(buckets: seq<BucketInfo>, l: Limits)
    requires UniqueNames(buckets)
    ensures multiset(Choose(buckets, NameSet(Victims(buckets, l)), false)) == multiset(Survivors(buckets, l))
  {
    var victims, survivors := Victims(buckets, l), Survivors(buckets, l);
    VictimsAndSurvivors(buckets, l);
    forall b ensures multiset(Choose(buckets, NameSet(victims), false))[b] == multiset(survivors)[b] {
      ChooseBag(buckets, NameSet(victims), false, b);
      BagOf(buckets, victims, survivors, b);
    }
  }

  lemma StuckVictims(buckets: seq<BucketInfo>, l: Limits, keys: set<string>)
    requires UniqueNames(buckets)
    ensures multiset(Choose(buckets, NameSet(Victims(buckets, l)) * keys, true))
         == multiset(Choose(Victims(buckets, l), keys, true))
  {
    var victims, survivors := Victims(buckets, l), Survivors(buckets, l);
    VictimsAndSurvivors(buckets, l);
    forall b
      ensures multiset(Choose(buckets, NameSet(victims) * keys, true))[b] == multiset(Choose(victims, keys, true))[b]
    {
      ChooseBag(buckets, NameSet(victims) * keys, true, b);
      ChooseBag(victims, keys, true, b);
      BagOf(buckets, victims, survivors, b);
    }
  }

  /** What is left of the victims that cannot be deleted. */
  function Remnants(buckets: seq<BucketInfo>, l: Limits, stuck: Stuck): seq<BucketInfo> {
    Map((b: BucketInfo) => Shrunk(stuck, b), Choose(Victims(buckets, l), stuck.Keys, true))
  }

  /** What is left in the store is the survivors and the remnants of the victims that could not be
      deleted. */
  lemma LeftInStore(buckets: seq<BucketInfo>, l: Limits, stuck: Stuck)
    requires UniqueNames(buckets)
    ensures multiset(Deleting(buckets, NameSet(Victims(buckets, l)), stuck))
         == multiset(Survivors(buckets, l)) + multiset(Remnants(buckets, l, stuck))
  {
    var names := NameSet(Victims(buckets, l));
    DeletingBag(buckets, names, stuck);
    SurvivorsAreRest(buckets, l);
    StuckVictims(buckets, l, stuck.Keys);
    MapPermutes((b: BucketInfo) => Shrunk(stuck, b), Choose(buckets, names * stuck.Keys, true),
      Choose(Victims(buckets, l), stuck.Keys, true));
  }

  lemma BagOf(buckets: seq<BucketInfo>, victims: seq<BucketInfo>, survivors: seq<BucketInfo>, b: BucketInfo)
    requires UniqueNames(buckets) && multiset(victims) + multiset(survivors) == multiset(buckets)
    ensures multiset(buckets)[b] == multiset(victims)[b] + multiset(survivors)[b]
    ensures b in buckets ==> multiset(survivors)[b] == if b.name in NameSet(victims) then 0 else 1
    ensures b in buckets ==> multiset(victims)[b] == if b.name in NameSet(victims) then 1 else 0
    ensures b !in buckets ==> multiset(victims)[b] == 0 && multiset(survivors)[b] == 0
  {
    if b in buckets {
      UniqueInBag(buckets, b, b);
      if b.name in NameSet(victims) {
        var c :| c in victims && c.name == b.name;
        assert c in multiset(victims);
        assert c in multiset(buckets);
        UniqueInBag(buckets, b, c);
      } else {
        assert b !in victims;
        assert b !in multiset(victims);
      }
    } else {
      assert b !in multiset(buckets);
    }
  }

  /** The size that a cleanup returns falls short of what the store still holds by exactly the remnants
      of the victims that could not be deleted; if all deletions succeed it is the size of the store. */
  lemma ReturnedSizeIsReal(buckets: seq<BucketInfo>, l: Limits, stuck: Stuck)
    requires UniqueNames(buckets)
    ensures TotalSize(Deleting(buckets, NameSet(Victims(buckets, l)), stuck))
         == TotalSize(Survivors(buckets, l)) + TotalSize(Remnants(buckets, l, stuck))
    ensures TotalSize(Remnants(buckets, l, stuck)) <= TotalSize(Choose(Victims(buckets, l), stuck.Keys, true))
    ensures stuck == map[] ==> TotalSize(Remnants(buckets, l, stuck)) == 0
  {
    var rest, lost := Survivors(buckets, l), Remnants(buckets, l, stuck);
    LeftInStore(buckets, l, stuck);
    TotalPermutes(Deleting(buckets, NameSet(Victims(buckets, l)), stuck), rest + lost);
    TotalOfConcat(rest, lost);
    ShrunkIsSmaller(Choose(Victims(buckets, l), stuck.Keys, true), stuck);
    NothingChosen(Victims(buckets, l));
  }

  lemma {:induction false} ShrunkIsSmaller(buckets: seq<BucketInfo>, stuck: Stuck)
    ensures TotalSize(Map((b: BucketInfo) => Shrunk(stuck, b), buckets)) <= TotalSize(buckets)
  {
    if buckets != [] {
      var shrink := (b: BucketInfo) => Shrunk(stuck, b);
      ShrunkIsSmaller(buckets[1..], stuck);
      assert Map(shrink, buckets)[1..] == Map(shrink, buckets[1..]);
    }
  }

  /** What a cleanup is about, without its steps: buckets one whole day older than the limit go; if the
      others take no more room than `maxSize` they all stay; else the oldest of them go, as many as it
      takes to come down to `normSize` and no more. */
  lemma CleanupInPlainTerms(buckets: seq<BucketInfo>, l: Limits)
    ensures var past, rest := Past(buckets, l), Survivors(buckets, l);
      var evicted := Victims(buckets, l)[|past|..];
      && past <= Victims(buckets, l)
      && multiset(past) + multiset(evicted) + multiset(rest) == multiset(buckets)
      && (forall b :: b in past ==> l.now - b.lastModified >= (l.maxAge + 1) * 86400)
      && (forall b :: b in evicted || b in rest ==> l.now - b.lastModified < (l.maxAge + 1) * 86400)
      && EvictsOldest(evicted, rest, l)
  {
    VictimsSplit(buckets, l);
    KeptAreYoung(buckets, l);
    EvictionSplits(buckets, l);
  }

  lemma VictimsSplit(buckets: seq<BucketInfo>, l: Limits)
    ensures var past, rest := Past(buckets, l), Survivors(buckets, l);
      var evicted := Victims(buckets, l)[|past|..];
      && past <= Victims(buckets, l) && evicted == Kept(buckets, l)[..Evicted(buckets, l)]
      && multiset(past) + multiset(evicted) + multiset(rest) == multiset(buckets)
      && forall b :: b in evicted || b in rest ==> b in Kept(buckets, l)
  {
    var kept, n := Kept(buckets, l), Evicted(buckets, l);
    VictimsAndSurvivors(buckets, l);
    BehindPrefix(Past(buckets, l), kept[..n]);
    PartsWithin(kept, n);
  }

  lemma BehindPrefix(a: seq<BucketInfo>, b: seq<BucketInfo>)
    ensures a <= a + b && (a + b)[|a|..] == b && multiset(a + b) == multiset(a) + multiset(b)
  {
  }

  lemma PartsWithin(s: seq<BucketInfo>, n: nat)
    requires n <= |s|
    ensures forall b :: b in s[..n] || b in s[n..] ==> b in s
  {
  }

  /** The eviction is needed, enough, minimal and takes the oldest. */
  predicate EvictsOldest(evicted: seq<BucketInfo>, rest: seq<BucketInfo>, l: Limits) {
    && (TotalSize(evicted) + TotalSize(rest) <= l.maxSize ==> evicted == [])
    && (TotalSize(rest) <= l.maxSize || TotalSize(rest) <= l.normSize || rest == [])
    && (evicted != [] ==>
          && (TotalSize(rest) <= l.normSize || rest == [])
          && TotalSize(rest) + evicted[|evicted| - 1].size > l.normSize)
    && (forall x, y :: x in evicted && y in rest ==> x.lastModified <= y.lastModified)
  }

  lemma EvictionSplits(buckets: seq<BucketInfo>, l: Limits)
    ensures EvictsOldest(Kept(buckets, l)[..Evicted(buckets, l)], Survivors(buckets, l), l)
  {
    var kept, n := Kept(buckets, l), Evicted(buckets, l);
    SurvivorsFit(buckets, l);
    SortIsPermutation(ByAge(buckets, l.now, l.maxAge, false));
    FrontIsOlder(kept, n);
    EvictionIsNeeded(kept, l, n);
  }

  lemma EvictionIsNeeded(kept: seq<BucketInfo>, l: Limits, n: nat)
    requires n == Removed(kept, l.maxSize, l.normSize) <= |kept|
    ensures TotalSize(kept[..n]) + TotalSize(kept[n..]) <= l.maxSize ==> n == 0
    ensures n > 0 ==> TotalSize(kept[n..]) <= l.normSize || n == |kept|
    ensures n > 0 ==> TotalSize(kept[n..]) + kept[n - 1].size > l.normSize
  {
    TotalOfConcat(kept[..n], kept[n..]);
    assert kept == kept[..n] + kept[n..];
    ExcessIsShortest(kept, l.normSize);
    if n > 0 {
      assert kept[n - 1..][1..] == kept[n..];
      assert TotalSize(kept[n - 1..]) > l.normSize;
    }
  }

  lemma FrontIsOlder(sorted: seq<BucketInfo>, n: nat)
    requires n <= |sorted| && Sorted(sorted)
    ensures forall x, y :: x in sorted[..n] && y in sorted[n..] ==> x.lastModified <= y.lastModified
  {
  }

  lemma KeptAreYoung(buckets: seq<BucketInfo>, l: Limits)
    ensures forall b :: b in Kept(buckets, l) ==> !TooOld(b, l.now, l.maxAge)
  {
    var within := ByAge(buckets, l.now, l.maxAge, false);
    SortIsPermutation(within);
    FreshPermutes(Kept(buckets, l), within, l);
  }

  lemma {:induction false} ByAgeOfFresh(buckets: seq<BucketInfo>, l: Limits)
    requires forall b :: b in buckets ==> !TooOld(b, l.now, l.maxAge)
    ensures Past(buckets, l) == [] && ByAge(buckets, l.now, l.maxAge, false) == buckets
  {
    if buckets != [] {
      ByAgeOfFresh(buckets[..|buckets| - 1], l);
      assert buckets[|buckets| - 1] in buckets;
      assert buckets == buckets[..|buckets| - 1] + [buckets[|buckets| - 1]];
    }
  }

  /** What survived a cleanup needs no further one. */
  lemma SurvivorsFit(buckets: seq<BucketInfo>, l: Limits)
    ensures var size := TotalSize(Survivors(buckets, l));
      size <= l.maxSize || size <= l.normSize || Survivors(buckets, l) == []
  {
    var within := ByAge(buckets, l.now, l.maxAge, false);
    EvictionIsMinimal(within, l.maxSize, l.normSize);
    SortIsPermutation(within);
    TotalPermutes(Kept(buckets, l), within);
    SameSize(Kept(buckets, l), within);
    assert Kept(buckets, l)[0..] == Kept(buckets, l);
  }

  /** A second cleanup with the same limits at the same moment removes nothing, if all deletions
      of the first succeeded. */
  lemma CleanupIsIdempotent(buckets: seq<BucketInfo>, l: Limits)
    requires UniqueNames(buckets)
    ensures var left := Deleting(buckets, NameSet(Victims(buckets, l)), map[]);
      Victims(left, l) == [] && TotalSize(Survivors(left, l)) == TotalSize(Survivors(buckets, l))
  {
    var left, rest := Deleting(buckets, NameSet(Victims(buckets, l)), map[]), Survivors(buckets, l);
    NothingStuck(buckets, l);
    TotalPermutes(left, rest);
    SameSize(left, rest);
    FreshPermutes(left, rest, l);
    SurvivorsFit(buckets, l);
    NothingToDo(left, l);
  }

  lemma NothingStuck(buckets: seq<BucketInfo>, l: Limits)
    requires UniqueNames(buckets)
    ensures multiset(Deleting(buckets, NameSet(Victims(buckets, l)), map[])) == multiset(Survivors(buckets, l))
    ensures forall b :: b in Survivors(buckets, l) ==> !TooOld(b, l.now, l.maxAge)
  {
    LeftInStore(buckets, l, map[]);
    NothingChosen(Victims(buckets, l));
    SurvivorsAreFresh(buckets, l);
  }

  lemma FreshPermutes(a: seq<BucketInfo>, b: seq<BucketInfo>, l: Limits)
    requires multiset(a) == multiset(b) && forall x :: x in b ==> !TooOld(x, l.now, l.maxAge)
    ensures forall x :: x in a ==> !TooOld(x, l.now, l.maxAge)
  {
    forall x | x in a ensures !TooOld(x, l.now, l.maxAge) {
      assert x in multiset(a);
      assert x in multiset(b);
    }
  }

  lemma NothingToDo(buckets: seq<BucketInfo>, l: Limits)
    requires forall b :: b in buckets ==> !TooOld(b, l.now, l.maxAge)
    requires TotalSize(buckets) <= l.maxSize || TotalSize(buckets) <= l.normSize || buckets == []
    ensures Victims(buckets, l) == [] && TotalSize(Survivors(buckets, l)) == TotalSize(buckets)
  {
    ByAgeOfFresh(buckets, l);
    SortIsPermutation(buckets);
    TotalPermutes(SortByDate(buckets), buckets);
    assert Evicted(buckets, l) == 0;
    assert SortByDate(buckets)[0..] == SortByDate(buckets);
  }

  lemma {:induction false} NothingChosen(buckets: seq<BucketInfo>)
    ensures Choose(buckets, {}, true) == []
  {
    if buckets != [] {
      NothingChosen(buckets[..|buckets| - 1]);
    }
  }

  lemma SurvivorsAreFresh(buckets: seq<BucketInfo>, l: Limits)
    ensures forall b :: b in Survivors(buckets, l) ==> !TooOld(b, l.now, l.maxAge)
  {
    var within := ByAge(buckets, l.now, l.maxAge, false);
    SortIsPermutation(within);
    forall b | b in Survivors(buckets, l) ensures !TooOld(b, l.now, l.maxAge) {
      assert b in Kept(buckets, l);
      assert b in multiset(Kept(buckets, l));
      assert b in within;
    }
  }
}
