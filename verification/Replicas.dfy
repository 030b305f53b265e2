/** The order in which a transformer tries the replicas of a file (transformer.py). */
module Replicas {
  import opened Text
  import opened Bags

  /** The replicas that start with "http", or those that do not, in their given order. */
  function OfClass(replicas: seq<string>, http: bool): (r: seq<string>)
    ensures forall i :: 0 <= i < |r| ==> StartsWith(r[i], "http") == http
  {
    if replicas == [] then []
    else
      var front := OfClass(replicas[..|replicas| - 1], http);
      var last := replicas[|replicas| - 1];
      if StartsWith(last, "http") == http then front + [last] else front
  }

  function PrioritizeReplicas(replicas: seq<string>): seq<string> {
    OfClass(replicas, false) + OfClass(replicas, true)
  }

  lemma {:induction false} ClassesPartition(replicas: seq<string>)
    ensures multiset(OfClass(replicas, false)) + multiset(OfClass(replicas, true)) == multiset(replicas)
  {
    if replicas != [] {
      ClassesPartition(replicas[..|replicas| - 1]);
      assert replicas == replicas[..|replicas| - 1] + [replicas[|replicas| - 1]];
    }
  }

  lemma {:induction false} ClassOfConcat(a: seq<string>, b: seq<string>, http: bool)
    ensures OfClass(a + b, http) == OfClass(a, http) + OfClass(b, http)
  {
    if b == [] {
      assert a + b == a;
    } else {
      ClassOfConcat(a, b[..|b| - 1], http);
      assert (a + b)[..|a + b| - 1] == a + b[..|b| - 1];
    }
  }

  lemma {:induction false} ClassOfUniform(replicas: seq<string>, c: bool, http: bool)
    requires forall i :: 0 <= i < |replicas| ==> StartsWith(replicas[i], "http") == c
    ensures OfClass(replicas, http) == if http == c then replicas else []
  {
    if replicas != [] {
      ClassOfUniform(replicas[..|replicas| - 1], c, http);
      assert replicas == replicas[..|replicas| - 1] + [replicas[|replicas| - 1]];
    }
  }

  /** Prioritizing permutes the replicas, keeps the order within each class and puts every replica
      that is not http before every one that is. */
  lemma PrioritizeIsStable(replicas: seq<string>)
    ensures var r := PrioritizeReplicas(replicas);
      && multiset(r) == multiset(replicas)
      && (forall http :: OfClass(r, http) == OfClass(replicas, http))
      && forall i, j :: 0 <= i < j < |r| && StartsWith(r[i], "http") ==> StartsWith(r[j], "http")
  {
    var roots, https := OfClass(replicas, false), OfClass(replicas, true);
    ClassesPartition(replicas);
    forall http ensures OfClass(PrioritizeReplicas(replicas), http) == OfClass(replicas, http) {
      ClassOfConcat(roots, https, http);
      ClassOfUniform(roots, false, http);
      ClassOfUniform(https, true, http);
    }
  }

  // ---------------------------------------------------------------- caches

  function Stripped(parts: seq<string>): (r: seq<string>)
    ensures |r| == |parts|
  {
    seq(|parts|, i requires 0 <= i < |parts| => Strip(parts[i]))
  }

  /** The path through the cache that its hash picks; without a prefix, the path itself. */
  function Pinned(prefix: string, hash: string -> nat, path: string): string {
    if prefix == "" then path
    else
      var caches := Stripped(Split(prefix, ','));
      "root://" + caches[hash(path) % |caches|] + "//" + path
  }

  /** With a comma-separated list of caches, spaces around them allowed, the path goes through the cache
      whose position is the hash of the path, modulo their number. */
  lemma PinnedThrough(caches: seq<string>, before: seq<string>, after: seq<string>, hash: string -> nat, path: string)
    requires caches != [] && |before| == |after| == |caches|
    requires forall i :: 0 <= i < |caches| ==> AllSpaces(before[i]) && AllSpaces(after[i]) && Bare(caches[i])
    requires forall i :: 0 <= i < |caches| ==> ',' !in before[i] + caches[i] + after[i]
    requires Join(Padded(caches, before, after), ',') != ""
    ensures Pinned(Join(Padded(caches, before, after), ','), hash, path)
         == "root://" + caches[hash(path) % |caches|] + "//" + path
    ensures Pinned("", hash, path) == path
  {
    var padded, k := Padded(caches, before, after), hash(path) % |caches|;
    SplitUndoesJoin(padded, ',');
    StripTrims(before[k], caches[k], after[k]);
  }

  function Padded(parts: seq<string>, before: seq<string>, after: seq<string>): (r: seq<string>)
    requires |before| == |after| == |parts|
    ensures |r| == |parts|
  {
    seq(|parts|, i requires 0 <= i < |parts| => before[i] + parts[i] + after[i])
  }

  method PrependXcache(prefix: string, hash: string -> nat, paths: seq<string>) returns (prefixed: seq<string>)
    ensures prefixed == AllPinned(prefix, hash, paths)
  {
    if prefix == "" {
      assert AllPinned(prefix, hash, paths) == paths;
      return paths;
    }
    var caches := Stripped(Split(prefix, ','));
    prefixed := [];
    var k := 0;
    while k < |paths|
      invariant 0 <= k <= |paths| && |prefixed| == k
      invariant forall i :: 0 <= i < k ==> prefixed[i] == Pinned(prefix, hash, paths[i])
    {
      var pinned := hash(paths[k]) % |caches|;
      var path := "root://" + caches[pinned] + "//" + paths[k];
      assert path == Pinned(prefix, hash, paths[k]);
      prefixed := prefixed + [path];
      k := k + 1;
    }
  }

  function AllPinned(prefix: string, hash: string -> nat, paths: seq<string>): seq<string> {
    Map((path: string) => Pinned(prefix, hash, path), paths)
  }

  /** The paths that are tried, in order. */
  function Tried(prefix: string, hash: string -> nat, replicas: seq<string>): seq<string> {
    AllPinned(prefix, hash, PrioritizeReplicas(replicas))
  }

  /** What is tried is a permutation of the replicas, each through the cache that its own path picks
      (so a path keeps its cache wherever it stands), first those that are not http. */
  lemma TriedOrder(prefix: string, hash: string -> nat, replicas: seq<string>)
    ensures var tried, n := Tried(prefix, hash, replicas), |OfClass(replicas, false)|;
      && multiset(tried) == multiset(AllPinned(prefix, hash, replicas))
      && n <= |tried| == |replicas|
      && tried[..n] == AllPinned(prefix, hash, OfClass(replicas, false))
      && tried[n..] == AllPinned(prefix, hash, OfClass(replicas, true))
  {
    ClassesPartition(replicas);
    MapPermutes((path: string) => Pinned(prefix, hash, path), PrioritizeReplicas(replicas), replicas);
    SameSize(PrioritizeReplicas(replicas), replicas);
  }
}
