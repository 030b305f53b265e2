/** The Rucio finder: placing replicas by priority (rucio_adapter.py) and collecting the files of a
    DID before handing them on at once (lookup_request.py). */
module RucioFinder {
  import opened Text
  import opened Bags

  datatype Replica = Replica(priority: int, text: string)

  // ---------------------------------------------------------------- replicas by priority

  /** Where a list of `n` slots takes an assignment at `priority - 1`: a negative index counts from
      the end, and an index beyond either end is an error. */
  function Slot(priority: int, n: nat): (slot: Option<nat>)
    ensures slot.Some? ==> slot.value < n
  {
    var i := priority - 1;
    if 0 <= i < n then Some(i)
    else if i < 0 <= i + n then Some(i + n)
    else None
  }

  predicate AllPlaced(replicas: seq<Replica>, n: nat) {
    forall k :: 0 <= k < |replicas| ==> Slot(replicas[k].priority, n).Some?
  }

  /** The text that ends up in slot `j`: that of the last replica assigned to it. */
  function LastAt(replicas: seq<Replica>, n: nat, j: nat): Option<string> {
    if replicas == [] then None
    else
      var last := replicas[|replicas| - 1];
      if Slot(last.priority, n) == Some(j) then Some(last.text) else LastAt(replicas[..|replicas| - 1], n, j)
  }

  /** A paths list, or none if an index was out of range. */
  function Placed(replicas: seq<Replica>): (r: Option<seq<Option<string>>>)
    ensures r.Some? ==> |r.value| == |replicas|
  {
    var n := |replicas|;
    if AllPlaced(replicas, n) then Some(seq(n, j requires 0 <= j < n => LastAt(replicas, n, j))) else None
  }

  method GetPaths(replicas: seq<Replica>) returns (paths: Option<seq<Option<string>>>)
    ensures paths == Placed(replicas)
  {
    var n := |replicas|;
    var slots := new Option<string>[n](_ => None);
    var k := 0;
    while k < n
      invariant 0 <= k <= n
      invariant AllPlaced(replicas[..k], n)
      invariant forall j :: 0 <= j < n ==> slots[j] == LastAt(replicas[..k], n, j)
    {
      var index := replicas[k].priority - 1;
      if index < -n || index >= n {
        assert Slot(replicas[k].priority, n).None?;
        return None;
      }
      var slot := if index < 0 then index + n else index;
      slots[slot] := Some(replicas[k].text);
      assert replicas[..k + 1][..k] == replicas[..k];
      assert replicas[..k + 1] == replicas[..k] + [replicas[k]];
      k := k + 1;
    }
    assert replicas[..n] == replicas;
    assert slots[..] == seq(n, j requires 0 <= j < n => LastAt(replicas, n, j));
    return Some(slots[..]);
  }

  function SlotsOf(replicas: seq<Replica>, n: nat): (r: seq<nat>)
    requires AllPlaced(replicas, n)
    ensures |r| == |replicas| && forall k :: 0 <= k < |r| ==> r[k] < n
  {
    seq(|replicas|, k requires 0 <= k < |replicas| => Slot(replicas[k].priority, n).value)
  }

  lemma {:induction false} FilledIffAssigned(replicas: seq<Replica>, n: nat, j: nat)
    requires AllPlaced(replicas, n)
    ensures LastAt(replicas, n, j).Some? <==> j in SlotsOf(replicas, n)
  {
    if replicas != [] {
      var front := replicas[..|replicas| - 1];
      FilledIffAssigned(front, n, j);
      assert SlotsOf(replicas, n) == SlotsOf(front, n) + [Slot(replicas[|replicas| - 1].priority, n).value];
    }
  }

  /** Pigeonhole: with as many replicas as slots, no slot stays empty exactly when no two replicas
      are assigned to the same one. */
  lemma NoEmptySlot(replicas: seq<Replica>)
    requires AllPlaced(replicas, |replicas|)
    ensures (forall j :: 0 <= j < |replicas| ==> Placed(replicas).value[j].Some?)
       <==> Distinct(SlotsOf(replicas, |replicas|))
  {
    var n := |replicas|;
    var slots := SlotsOf(replicas, n);
    DistinctBySize(slots);
    assert ToSet(slots) <= Below(n);
    forall j: nat | j < n ensures LastAt(replicas, n, j).Some? <==> j in slots {
      FilledIffAssigned(replicas, n, j);
    }
    if Distinct(slots) {
      SubsetCardinality(ToSet(slots), Below(n));
      forall j: nat | j < n ensures Placed(replicas).value[j].Some? {
        assert j in Below(n);
        assert j in ToSet(slots);
      }
    } else if forall j :: 0 <= j < n ==> Placed(replicas).value[j].Some? {
      forall j | j in Below(n) ensures j in ToSet(slots) {
        assert Placed(replicas).value[j].Some?;
      }
      assert ToSet(slots) == Below(n);
    }
  }

  lemma {:induction false} UniqueSlotHolds(replicas: seq<Replica>, n: nat, k: nat)
    requires AllPlaced(replicas, n) && k < |replicas| && Distinct(SlotsOf(replicas, n))
    ensures LastAt(replicas, n, SlotsOf(replicas, n)[k]) == Some(replicas[k].text)
  {
    var m := |replicas| - 1;
    if k < m {
      var front := replicas[..m];
      assert SlotsOf(front, n) == SlotsOf(replicas, n)[..m];
      assert SlotsOf(replicas, n)[k] != SlotsOf(replicas, n)[m];
      UniqueSlotHolds(front, n, k);
    }
  }

  /** With distinct priorities from 1 to the number of replicas, every slot is filled and every
      replica stands at its priority. */
  lemma PathsInPriorityOrder(replicas: seq<Replica>)
    requires forall k :: 0 <= k < |replicas| ==> 1 <= replicas[k].priority <= |replicas|
    requires forall i, k :: 0 <= i < k < |replicas| ==> replicas[i].priority != replicas[k].priority
    ensures Placed(replicas).Some?
    ensures forall j :: 0 <= j < |replicas| ==> Placed(replicas).value[j].Some?
    ensures forall k :: 0 <= k < |replicas| ==>
      Placed(replicas).value[replicas[k].priority - 1] == Some(replicas[k].text)
  {
    var n := |replicas|;
    assert forall k :: 0 <= k < n ==> SlotsOf(replicas, n)[k] == replicas[k].priority - 1;
    NoEmptySlot(replicas);
    forall k | 0 <= k < n ensures Placed(replicas).value[replicas[k].priority - 1] == Some(replicas[k].text) {
      UniqueSlotHolds(replicas, n, k);
    }
  }

  /** When no slot is shared, every replica stands where its priority says: priorities from 1 count from the
      front, and from 0 down from the end; any other priority is an error. */
  lemma PathsByPriority(replicas: seq<Replica>)
    ensures Placed(replicas).None?
       <==> exists k :: 0 <= k < |replicas| && !(-|replicas| < replicas[k].priority <= |replicas|)
    ensures Placed(replicas).Some? && Distinct(SlotsOf(replicas, |replicas|)) ==>
      forall k :: 0 <= k < |replicas| ==>
        Placed(replicas).value[if replicas[k].priority >= 1 then replicas[k].priority - 1
                               else |replicas| + replicas[k].priority - 1] == Some(replicas[k].text)
  {
    var n := |replicas|;
    forall k | 0 <= k < n
      ensures Slot(replicas[k].priority, n).Some? <==> -n < replicas[k].priority <= n
    {
    }
    if Placed(replicas).Some? && Distinct(SlotsOf(replicas, n)) {
      forall k | 0 <= k < n
        ensures Placed(replicas).value[SlotsOf(replicas, n)[k]] == Some(replicas[k].text)
      {
        UniqueSlotHolds(replicas, n, k);
      }
    }
  }

  /** Two replicas of the same priority leave a slot empty. */
  lemma EqualPrioritiesLeaveGap(replicas: seq<Replica>, i: nat, k: nat)
    requires AllPlaced(replicas, |replicas|) && i < k < |replicas| && replicas[i].priority == replicas[k].priority
    ensures exists j :: 0 <= j < |replicas| && Placed(replicas).value[j].None?
  {
    NoEmptySlot(replicas);
    assert SlotsOf(replicas, |replicas|)[i] == SlotsOf(replicas, |replicas|)[k];
  }

  // ---------------------------------------------------------------- all files or none

  /** A file of a metalink; without a url it has no replicas. */
  datatype MetaFile = MetaFile(identity: string, url: Option<seq<Replica>>, size: nat)

  datatype FoundFile = FoundFile(paths: seq<Option<string>>, size: nat)

  function StripFront(s: string, chars: string): string {
    if s != "" && s[0] in chars then StripFront(s[1..], chars) else s
  }

  function StripBack(s: string, chars: string): string {
    if s != "" && s[|s| - 1] in chars then StripBack(s[..|s| - 1], chars) else s
  }

  /** Whether a file yields a record: it has replicas, and they can be placed if they are asked for. */
  predicate Usable(file: MetaFile, logical: bool) {
    file.url.Some? && (logical || Placed(file.url.value).Some?)
  }

  function Found(file: MetaFile, logical: bool): FoundFile
    requires Usable(file, logical)
  {
    FoundFile(
      if logical then [Some(StripBack(StripFront(file.identity, "cms:"), "cms:"))] else Placed(file.url.value).value,
      file.size)
  }

  /** `s` is `t` between characters of `chars`, and neither end of `t` is one of them. */
  predicate Trims(s: string, a: string, t: string, b: string, chars: string) {
    && s == a + t + b
    && (forall i :: 0 <= i < |a| ==> a[i] in chars) && (forall i :: 0 <= i < |b| ==> b[i] in chars)
    && (t != "" ==> t[0] !in chars && t[|t| - 1] !in chars)
  }

  lemma {:induction false} StripFrontTrims(a: string, t: string, chars: string)
    requires (forall i :: 0 <= i < |a| ==> a[i] in chars) && (t != "" ==> t[0] !in chars)
    ensures StripFront(a + t, chars) == t
  {
    if a == "" {
      assert a + t == t;
    } else {
      StripFrontTrims(a[1..], t, chars);
      assert (a + t)[1..] == a[1..] + t;
    }
  }

  lemma {:induction false} StripBackTrims(t: string, b: string, chars: string)
    requires (forall i :: 0 <= i < |b| ==> b[i] in chars) && (t != "" ==> t[|t| - 1] !in chars)
    ensures StripBack(t + b, chars) == t
  {
    if b == "" {
      assert t + b == t;
    } else {
      StripBackTrims(t, b[..|b| - 1], chars);
      assert (t + b)[..|t + b| - 1] == t + b[..|b| - 1];
    }
  }

  lemma StripIsTrim(s: string, a: string, t: string, b: string, chars: string)
    requires Trims(s, a, t, b, chars)
    ensures StripBack(StripFront(s, chars), chars) == t
  {
    if t == "" {
      StripFrontTrims(a + b, "", chars);
      assert s == a + b + "";
    } else {
      assert s == a + (t + b);
      StripFrontTrims(a, t + b, chars);
      StripBackTrims(t, b, chars);
    }
  }

  /** What is listed about a file: its size, and with logical names the one name that is left of the
      identity without any of the characters c, m, s and colon at either end; else one path for each
      replica, in the order of their priorities if these are distinct and run from 1. */
  ghost predicate Describes(found: FoundFile, file: MetaFile, logical: bool) {
    && found.size == file.size && file.url.Some?
    && (logical ==> forall a, t, b :: Trims(file.identity, a, t, b, "cms:") ==> found.paths == [Some(t)])
    && (!logical ==> |found.paths| == |file.url.value|)
    && (!logical && Ranked(file.url.value) ==>
          forall k :: 0 <= k < |file.url.value| ==>
            found.paths[file.url.value[k].priority - 1] == Some(file.url.value[k].text))
  }

  /** The priorities are distinct and run from 1. */
  predicate Ranked(replicas: seq<Replica>) {
    && (forall k :: 0 <= k < |replicas| ==> 1 <= replicas[k].priority <= |replicas|)
    && forall i, k :: 0 <= i < k < |replicas| ==> replicas[i].priority != replicas[k].priority
  }

  lemma FoundDescribes(file: MetaFile, logical: bool)
    requires Usable(file, logical)
    ensures Describes(Found(file, logical), file, logical)
  {
    var found := Found(file, logical);
    if logical {
      forall a, t, b | Trims(file.identity, a, t, b, "cms:") ensures found.paths == [Some(t)] {
        StripIsTrim(file.identity, a, t, b, "cms:");
      }
    } else if Ranked(file.url.value) {
      PathsInPriorityOrder(file.url.value);
    }
  }

  predicate AllUsable(files: seq<MetaFile>, logical: bool) {
    forall i :: 0 <= i < |files| ==> Usable(files[i], logical)
  }

  function FoundIn(files: seq<MetaFile>, logical: bool): (r: seq<FoundFile>)
    requires AllUsable(files, logical)
    ensures |r| == |files|
  {
    seq(|files|, i requires 0 <= i < |files| => Found(files[i], logical))
  }

  /** The files that have a url, in their given order. */
  function WithUrl(files: seq<MetaFile>): (r: seq<MetaFile>)
    ensures |r| <= |files|
    ensures forall i :: 0 <= i < |r| ==> r[i].url.Some?
    ensures |r| == |files| <==> forall i :: 0 <= i < |files| ==> files[i].url.Some?
    ensures |r| == |files| ==> r == files
  {
    if files == [] then []
    else
      var front, last := WithUrl(files[..|files| - 1]), files[|files| - 1];
      assert files == files[..|files| - 1] + [last];
      if last.url.Some? then front + [last] else front
  }

  /** The files of all datasets, one dataset after the other. */
  function Concat(datasets: seq<seq<MetaFile>>): seq<MetaFile> {
    if datasets == [] then []
    else Concat(datasets[..|datasets| - 1]) + datasets[|datasets| - 1]
  }

  function SumSizes(files: seq<FoundFile>): nat {
    if files == [] then 0 else SumSizes(files[..|files| - 1]) + files[|files| - 1].size
  }

  function SumPaths(files: seq<FoundFile>): nat {
    if files == [] then 0 else SumPaths(files[..|files| - 1]) + |files[|files| - 1].paths|
  }

  /** The sums take in every file once. */
  lemma {:induction false} SumsCount(a: seq<FoundFile>, f: FoundFile, b: seq<FoundFile>)
    ensures SumSizes([]) == SumPaths([]) == 0
    ensures SumSizes(a + [f] + b) == SumSizes(a + b) + f.size
    ensures SumPaths(a + [f] + b) == SumPaths(a + b) + |f.paths|
  {
    if b == [] {
      assert a + [f] + b == a + [f] && a + b == a;
      SumsSnoc(a, f);
    } else {
      var front, last := b[..|b| - 1], b[|b| - 1];
      SumsCount(a, f, front);
      SumsSnoc(a + [f] + front, last);
      SumsSnoc(a + front, last);
      assert a + [f] + b == a + [f] + front + [last] && a + b == a + front + [last];
    }
  }

  lemma SumsSnoc(front: seq<FoundFile>, last: FoundFile)
    ensures SumSizes(front + [last]) == SumSizes(front) + last.size
    ensures SumPaths(front + [last]) == SumPaths(front) + |last.paths|
  {
    assert (front + [last])[..|front|] == front;
  }

  /** What one dataset contributes: the usable files and the number of files without replicas; or
      nothing, if placing the replicas of a file raised an error. */
  datatype Listing = Listing(files: seq<FoundFile>, missing: nat) | Raised

  /** A file can be listed when it has a url, and, unless logical names are wanted, no priority of its replicas
      is out of range. */
  lemma UsableWhen(file: MetaFile, logical: bool)
    ensures Usable(file, logical) <==>
      file.url.Some? && (logical || forall k :: 0 <= k < |file.url.value| ==>
        -|file.url.value| < file.url.value[k].priority <= |file.url.value|)
  {
    if file.url.Some? {
      PathsByPriority(file.url.value);
    }
  }

  predicate Misplaced(file: MetaFile, logical: bool) {
    file.url.Some? && !Usable(file, logical)
  }

  /** No file has a replica that cannot be placed. */
  predicate Sound(files: seq<MetaFile>, logical: bool) {
    forall i :: 0 <= i < |files| ==> !Misplaced(files[i], logical)
  }

  lemma SoundIsUsable(files: seq<MetaFile>, logical: bool)
    requires Sound(files, logical)
    ensures AllUsable(WithUrl(files), logical)
    ensures |WithUrl(files)| == |files| <==> AllUsable(files, logical)
  {
    assert forall i :: 0 <= i < |files| ==> !Misplaced(files[i], logical) ==>
      (Usable(files[i], logical) <==> files[i].url.Some?);
    if files != [] {
      SoundIsUsable(files[..|files| - 1], logical);
    }
  }

  /** What listing one dataset gives: the records of the files with replicas, in order, and the number
      of those without. */
  function Listed(files: seq<MetaFile>, logical: bool): (listing: Listing)
    ensures listing.Raised? <==> !Sound(files, logical)
    ensures listing.Raised? ==> !AllUsable(files, logical)
    ensures listing.Listing? ==> (listing.missing == 0 <==> AllUsable(files, logical))
    ensures listing.Listing? && listing.missing == 0 ==> listing.files == FoundIn(files, logical)
  {
    if Sound(files, logical) then
      SoundIsUsable(files, logical);
      Listing(FoundIn(WithUrl(files), logical), |files| - |WithUrl(files)|)
    else Raised
  }

  lemma ListedNext(files: seq<MetaFile>, logical: bool, k: nat)
    requires k < |files| && Listed(files[..k], logical).Listing?
    ensures var front, next := Listed(files[..k], logical), Listed(files[..k + 1], logical);
      next == if files[k].url.None? then Listing(front.files, front.missing + 1)
              else if Misplaced(files[k], logical) then Raised
              else Listing(front.files + [Found(files[k], logical)], front.missing)
  {
    assert files[..k + 1][..k] == files[..k];
  }

  lemma AllDescribed(files: seq<MetaFile>, logical: bool)
    requires AllUsable(files, logical)
    ensures forall i :: 0 <= i < |files| ==> Describes(FoundIn(files, logical)[i], files[i], logical)
  {
    forall i | 0 <= i < |files| ensures Describes(FoundIn(files, logical)[i], files[i], logical) {
      FoundDescribes(files[i], logical);
    }
  }

  /** The files with a url are all of those, each as often as it is there, in order. */
  lemma {:induction false} WithUrlKeeps(a: seq<MetaFile>, f: MetaFile, b: seq<MetaFile>)
    ensures WithUrl([]) == []
    ensures WithUrl(a + [f] + b) == WithUrl(a) + (if f.url.Some? then [f] else []) + WithUrl(b)
  {
    if b == [] {
      assert a + [f] + b == a + [f];
      assert (a + [f])[..|a|] == a;
    } else {
      var front, last := b[..|b| - 1], b[|b| - 1];
      WithUrlKeeps(a, f, front);
      assert (a + [f] + b)[..|a + [f] + b| - 1] == a + [f] + front;
    }
  }

  /** The files of one dataset stand together, behind those of all datasets before it. */
  lemma {:induction false} ConcatHolds(before: seq<seq<MetaFile>>, ds: seq<MetaFile>, after: seq<seq<MetaFile>>)
    ensures Concat([]) == []
    ensures Concat(before + [ds] + after) == Concat(before) + ds + Concat(after)
  {
    if after == [] {
      assert before + [ds] + after == before + [ds];
      assert (before + [ds])[..|before|] == before;
    } else {
      var front, last := after[..|after| - 1], after[|after| - 1];
      ConcatHolds(before, ds, front);
      assert (before + [ds] + after)[..|before + [ds] + after| - 1] == before + [ds] + front;
    }
  }

  /** The paths of a file: its logical name, or its replicas by priority. */
  method PathsOf(f: MetaFile, logical: bool) returns (path: Option<seq<Option<string>>>)
    requires f.url.Some?
    ensures path.Some? <==> !Misplaced(f, logical)
    ensures path.Some? ==> FoundFile(path.value, f.size) == Found(f, logical)
  {
    if logical {
      return Some([Some(StripBack(StripFront(f.identity, "cms:"), "cms:"))]);
    }
    path := GetPaths(f.url.value);
  }

  /** Lists one dataset, file by file. */
  method ListDataset(files: seq<MetaFile>, logical: bool) returns (listing: Listing)
    ensures listing == Listed(files, logical)
    ensures listing.Listing? ==>
      && |listing.files| == |WithUrl(files)| == |files| - listing.missing
      && forall i :: 0 <= i < |listing.files| ==> Describes(listing.files[i], WithUrl(files)[i], logical)
  {
    var found, missing := [], 0;
    var k := 0;
    while k < |files|
      invariant 0 <= k <= |files|
      invariant Listed(files[..k], logical) == Listing(found, missing)
    {
      var f := files[k];
      ListedNext(files, logical, k);
      k := k + 1;
      if f.url.None? {
        missing := missing + 1;
        continue;
      }
      var path := PathsOf(f, logical);
      if path.None? {
        assert Misplaced(files[k - 1], logical);
        return Raised;
      }
      found := found + [FoundFile(path.value, f.size)];
    }
    assert files[..|files|] == files;
    SoundIsUsable(files, logical);
    AllDescribed(WithUrl(files), logical);
    return Listing(found, missing);
  }

  /** What `lookup_files` hands on. */
  datatype Lookup = Yielded(files: seq<FoundFile>, count: nat, size: nat, paths: nat) | Failed

  /** Collects the files of all datasets. The list is handed on only after all of them were seen, so
      a missing replica anywhere leaves nothing handed on. */
  method LookupFiles(datasets: seq<seq<MetaFile>>, logical: bool) returns (lookup: Lookup)
    ensures lookup.Yielded? <==> AllUsable(Concat(datasets), logical)
    ensures lookup.Yielded? ==>
      && lookup.files == FoundIn(Concat(datasets), logical)
      && lookup.count == |lookup.files| && lookup.size == SumSizes(lookup.files)
      && lookup.paths == SumPaths(lookup.files)
    ensures lookup.Yielded? ==>
      && |lookup.files| == |Concat(datasets)|
      && forall i :: 0 <= i < |lookup.files| ==> Describes(lookup.files[i], Concat(datasets)[i], logical)
  {
    var all, count, size, paths := [], 0, 0, 0;
    var missing: nat := 0;
    var d := 0;
    assert AllUsable(Concat(datasets[..0]), logical);
    while d < |datasets|
      invariant 0 <= d <= |datasets|
      invariant missing == 0 <==> AllUsable(Concat(datasets[..d]), logical)
      invariant missing == 0 ==> all == FoundIn(Concat(datasets[..d]), logical)
      invariant count == |all| && size == SumSizes(all) && paths == SumPaths(all)
    {
      var listing := ListDataset(datasets[d], logical);
      UsableConcat(datasets, d, logical);
      if listing.Raised? {
        ConcatPrefix(datasets, d + 1, logical);
        return Failed;
      }
      missing := missing + listing.missing;
      all, count, size, paths := Accumulate(all, count, size, paths, listing.files);
      d := d + 1;
    }
    assert datasets[..|datasets|] == datasets;
    if missing > 0 {
      return Failed;
    }
    AllDescribed(Concat(datasets), logical);
    return Yielded(all, count, size, paths);
  }

  /** The inner loop: counts and appends one file after the other. */
  method Accumulate(all: seq<FoundFile>, count: nat, size: nat, paths: nat, files: seq<FoundFile>)
    returns (all': seq<FoundFile>, count': nat, size': nat, paths': nat)
    requires count == |all| && size == SumSizes(all) && paths == SumPaths(all)
    ensures all' == all + files
    ensures count' == |all'| && size' == SumSizes(all') && paths' == SumPaths(all')
  {
    all', count', size', paths' := all, count, size, paths;
    var k := 0;
    while k < |files|
      invariant 0 <= k <= |files|
      invariant all' == all + files[..k]
      invariant count' == |all'| && size' == SumSizes(all') && paths' == SumPaths(all')
    {
      var af := files[k];
      ghost var front := all';
      count', size', paths' := count' + 1, size' + af.size, paths' + |af.paths|;
      all' := all' + [af];
      assert all'[..|all'| - 1] == front;
      k := k + 1;
    }
  }

  lemma UsableConcat(datasets: seq<seq<MetaFile>>, d: nat, logical: bool)
    requires d < |datasets|
    ensures var front, next := Concat(datasets[..d]), Concat(datasets[..d + 1]);
      && next == front + datasets[d]
      && (AllUsable(next, logical) <==> AllUsable(front, logical) && AllUsable(datasets[d], logical))
      && (AllUsable(next, logical) ==>
            FoundIn(next, logical) == FoundIn(front, logical) + FoundIn(datasets[d], logical))
  {
    assert datasets[..d + 1][..d] == datasets[..d];
    var front, next := Concat(datasets[..d]), Concat(datasets[..d + 1]);
    assert next == front + datasets[d];
    FoundInConcat(front, datasets[d], logical);
  }

  lemma FoundInConcat(a: seq<MetaFile>, b: seq<MetaFile>, logical: bool)
    ensures AllUsable(a + b, logical) <==> AllUsable(a, logical) && AllUsable(b, logical)
    ensures AllUsable(a + b, logical) ==> FoundIn(a + b, logical) == FoundIn(a, logical) + FoundIn(b, logical)
  {
    assert forall i :: 0 <= i < |a| ==> (a + b)[i] == a[i];
    assert forall i :: 0 <= i < |b| ==> (a + b)[|a| + i] == b[i];
  }

  /** A file that is not usable stays in the way whatever follows. */
  lemma {:induction false} ConcatPrefix(datasets: seq<seq<MetaFile>>, d: nat, logical: bool)
    requires d <= |datasets| && !AllUsable(Concat(datasets[..d]), logical)
    ensures !AllUsable(Concat(datasets), logical)
    decreases |datasets| - d
  {
    if d == |datasets| {
      assert datasets[..d] == datasets;
    } else {
      UsableConcat(datasets, d, logical);
      ConcatPrefix(datasets, d + 1, logical);
    }
  }
}
