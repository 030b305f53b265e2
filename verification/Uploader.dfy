/** The process that uploads results to the object store (object_store_uploader.py): a consumer of
    the upload queue that a poison pill ends. */
module Uploader {
  import opened Text
  import opened Bags
  import opened Models
  import opened Sidecar

  /** Position of the last dot of `name`, or 0. */
  function LastDot(name: string): (i: nat)
    ensures i == 0 || (i < |name| && name[i] == '.')
  {
    if name == "" then 0
    else if name[|name| - 1] == '.' then |name| - 1
    else LastDot(name[..|name| - 1])
  }

  /** `Path.with_suffix`: a dot at either end of a name starts no suffix. */
  function WithSuffix(name: string, suffix: string): string {
    var i := LastDot(name);
    if 0 < i < |name| - 1 then name[..i] + suffix else name + suffix
  }

  lemma {:induction false} LastDotAt(name: string, i: nat)
    requires i < |name| && name[i] == '.' && forall k :: i < k < |name| ==> name[k] != '.'
    ensures LastDot(name) == i
  {
    if i < |name| - 1 {
      LastDotAt(name[..|name| - 1], i);
    }
  }

  /** A suffix is replaced, whatever dots stand before it. */
  lemma SuffixIsReplaced(stem: string, extension: string, suffix: string)
    requires stem != "" && extension != "" && '.' !in extension
    ensures WithSuffix(stem + "." + extension, suffix) == stem + suffix
  {
    var name := stem + "." + extension;
    assert forall k :: |stem| < k < |name| ==> name[k] == extension[k - |stem| - 1];
    LastDotAt(name, |stem|);
    assert name[..|stem|] == stem;
  }

  /** A name without a dot but at its ends, or with a dot at its very end, has no suffix and gets one added. */
  lemma SuffixIsAdded(name: string, suffix: string)
    ensures WithSuffix(name, suffix) == name + suffix
      <== name == "" || '.' !in name[1..] || name[|name| - 1] == '.'
  {
    var i := LastDot(name);
    assert 0 < i < |name| ==> name[1..][i - 1] == '.';
    if name != "" && name[|name| - 1] == '.' {
      LastDotAt(name, |name| - 1);
    }
  }

  datatype Event = Uploaded(objectName: string, file: Location) | Reported(rec: Report)

  /** What becomes of the file of an item: it is uploaded as it is, or converted first. */
  function FileToUpload(convert: bool, source: Location): Location {
    if convert then Location(source.dir, WithSuffix(source.name, ".parquet")) else source
  }

  function ItemLog(convert: bool, item: WorkItem): seq<Event>
    requires item.Item?
  {
    var file := FileToUpload(convert, item.source);
    [Uploaded(file.name, file), Reported(item.rec)]
  }

  /** Each item is uploaded and then reported, in the order of the queue. */
  function Log(convert: bool, items: seq<WorkItem>): (log: seq<Event>)
    requires forall i :: 0 <= i < |items| ==> items[i].Item?
  {
    if items == [] then []
    else Log(convert, items[..|items| - 1]) + ItemLog(convert, items[|items| - 1])
  }

  lemma LogNext(convert: bool, queue: seq<WorkItem>, n: nat)
    requires n < |queue| && forall i :: 0 <= i <= n ==> queue[i].Item?
    ensures Log(convert, queue[..n + 1]) == Log(convert, queue[..n]) + ItemLog(convert, queue[n])
  {
    assert queue[..n + 1][..n] == queue[..n];
  }

  /** Ends the service before an item: the pill, or a file that cannot be converted. */
  predicate Ends(convert: bool, convertible: Location -> bool, item: WorkItem) {
    item.Pill? || (convert && !convertible(item.source))
  }

  /** Number of items that are served before the service ends or has to wait. */
  function Served(convert: bool, convertible: Location -> bool, queue: seq<WorkItem>): (n: nat)
    ensures n <= |queue|
    ensures forall i :: 0 <= i < n ==> !Ends(convert, convertible, queue[i])
    ensures n < |queue| ==> Ends(convert, convertible, queue[n])
  {
    if queue == [] || Ends(convert, convertible, queue[0]) then 0
    else 1 + Served(convert, convertible, queue[1..])
  }

  lemma {:induction false} ServedIs(convert: bool, convertible: Location -> bool, queue: seq<WorkItem>, n: nat)
    requires n <= |queue|
    requires forall i :: 0 <= i < n ==> !Ends(convert, convertible, queue[i])
    requires n < |queue| ==> Ends(convert, convertible, queue[n])
    ensures Served(convert, convertible, queue) == n
  {
    if n > 0 {
      ServedIs(convert, convertible, queue[1..], n - 1);
    }
  }

  datatype Service = Drained | Waiting | Died

  class ObjectStoreUploader {
    const convert: bool
    const convertible: Location -> bool
    var inputQueue: seq<WorkItem>
    var log: seq<Event>

    constructor (convert: bool, convertible: Location -> bool, queue: seq<WorkItem>)
      ensures this.convert == convert && this.convertible == convertible
      ensures inputQueue == queue && log == []
    {
      this.convert, this.convertible := convert, convertible;
      inputQueue, log := queue, [];
    }

    method UploadAndReport(item: WorkItem)
      requires item.Item?
      modifies this`log
      ensures log == old(log) + ItemLog(convert, item)
    {
      var file := FileToUpload(convert, item.source);
      log := log + [Uploaded(file.name, file)];
      log := log + [Reported(item.rec)];
    }

    /** Serves the queue until the pill; with an empty queue it would wait for more. */
    method ServiceWorkQueue() returns (end: Service)
      modifies this
      ensures var n := Served(convert, convertible, old(inputQueue));
        && log == old(log) + Log(convert, old(inputQueue)[..n])
        && (end.Waiting? <==> n == |old(inputQueue)|)
        && (end.Drained? <==> n < |old(inputQueue)| && old(inputQueue)[n].Pill?)
        && inputQueue == if n < |old(inputQueue)| then old(inputQueue)[n + 1..] else []
    {
      ghost var queue, n := inputQueue, 0;
      while true
        invariant n <= |queue| && inputQueue == queue[n..]
        invariant ServedSoFar(queue, n, old(log))
        decreases |inputQueue|
      {
        if inputQueue == [] {
          ServedIs(convert, convertible, queue, n);
          return Waiting;
        }
        var item := inputQueue[0];
        inputQueue := inputQueue[1..];
        if Ends(convert, convertible, item) {
          ServedIs(convert, convertible, queue, n);
          return if item.Pill? then Drained else Died;
        }
        UploadAndReport(item);
        LogNext(convert, queue, n);
        n := n + 1;
      }
    }

    /** The first `n` items of the queue were served, and logged. */
    ghost predicate ServedSoFar(queue: seq<WorkItem>, n: nat, before: seq<Event>)
      reads this
    {
      && n <= |queue| && (forall i :: 0 <= i < n ==> !Ends(convert, convertible, queue[i]))
      && log == before + Log(convert, queue[..n])
    }
  }

  // ---------------------------------------------------------------- what is promised

  function ReportsIn(log: seq<Event>): seq<Report> {
    if log == [] then []
    else
      var front := ReportsIn(log[..|log| - 1]);
      var last := log[|log| - 1];
      if last.Reported? then front + [last.rec] else front
  }

  function RecordsOf(items: seq<WorkItem>): (r: seq<Report>)
    requires forall i :: 0 <= i < |items| ==> items[i].Item?
    ensures |r| == |items|
  {
    seq(|items|, i requires 0 <= i < |items| => items[i].rec)
  }

  /** The reports of a service are those of the served items, each once, in order. */
  lemma {:induction false} ReportsOfLog(convert: bool, items: seq<WorkItem>)
    requires forall i :: 0 <= i < |items| ==> items[i].Item?
    ensures ReportsIn(Log(convert, items)) == RecordsOf(items)
    ensures |Log(convert, items)| == 2 * |items|
  {
    if items != [] {
      var front, last := items[..|items| - 1], items[|items| - 1];
      ReportsOfLog(convert, front);
      var log := Log(convert, items);
      var file := FileToUpload(convert, last.source);
      assert log[..|log| - 1] == Log(convert, front) + [Uploaded(file.name, file)];
      assert log[..|log| - 1][..|log| - 2] == Log(convert, front);
    }
  }

  /** Every file is uploaded before it is reported. */
  lemma {:induction false} UploadedBeforeReported(convert: bool, items: seq<WorkItem>, i: nat)
    requires forall k :: 0 <= k < |items| ==> items[k].Item?
    requires i < |items|
    ensures |Log(convert, items)| == 2 * |items|
    ensures var file := FileToUpload(convert, items[i].source);
      && Log(convert, items)[2 * i] == Uploaded(file.name, file)
      && Log(convert, items)[2 * i + 1] == Reported(items[i].rec)
  {
    var front := items[..|items| - 1];
    ReportsOfLog(convert, front);
    if i < |items| - 1 {
      UploadedBeforeReported(convert, front, i);
    }
  }

  /** What is uploaded for a file with a suffix: when converting, the file that has `.parquet` instead, under
      that name, else the file itself under its own name. */
  lemma ConvertedIsUploaded(convert: bool, items: seq<WorkItem>, i: nat, dir: string, stem: string, extension: string)
    requires forall k :: 0 <= k < |items| ==> items[k].Item?
    requires i < |items| && items[i].source == Location(dir, stem + "." + extension)
    requires stem != "" && extension != "" && '.' !in extension
    ensures |Log(convert, items)| == 2 * |items|
    ensures Log(convert, items)[2 * i] ==
      if convert then Uploaded(stem + ".parquet", Location(dir, stem + ".parquet"))
      else Uploaded(stem + "." + extension, items[i].source)
    ensures Log(convert, items)[2 * i + 1] == Reported(items[i].rec)
  {
    UploadedBeforeReported(convert, items, i);
    SuffixIsReplaced(stem, extension, ".parquet");
  }

  /** The same for a name without a suffix. */
  lemma UnsuffixedIsUploaded(convert: bool, items: seq<WorkItem>, i: nat, dir: string, name: string)
    requires forall k :: 0 <= k < |items| ==> items[k].Item?
    requires i < |items| && items[i].source == Location(dir, name)
    requires name == "" || '.' !in name[1..] || name[|name| - 1] == '.'
    ensures |Log(convert, items)| == 2 * |items|
    ensures Log(convert, items)[2 * i] ==
      if convert then Uploaded(name + ".parquet", Location(dir, name + ".parquet")) else Uploaded(name, items[i].source)
    ensures Log(convert, items)[2 * i + 1] == Reported(items[i].rec)
  {
    UploadedBeforeReported(convert, items, i);
    SuffixIsAdded(name, ".parquet");
  }

  /** A queue of items with a pill behind them is drained, every item reported and nothing behind
      the pill touched, exactly when no item needs a conversion that fails. */
  lemma DrainsToPill(convert: bool, convertible: Location -> bool, items: seq<WorkItem>, behind: seq<WorkItem>)
    requires forall i :: 0 <= i < |items| ==> items[i].Item?
    ensures var queue := items + [Pill] + behind;
      var n := Served(convert, convertible, queue);
      && n <= |items|
      && (queue[n].Pill? <==> n == |items|)
      && (n == |items| <==> !convert || forall i :: 0 <= i < |items| ==> convertible(items[i].source))
      && (n == |items| ==> ReportsIn(Log(convert, queue[..n])) == RecordsOf(items) && queue[n + 1..] == behind)
  {
    var queue := items + [Pill] + behind;
    var n := Served(convert, convertible, queue);
    assert queue[|items|].Pill?;
    assert forall i :: 0 <= i < |items| ==> queue[i] == items[i];
    if n == |items| {
      assert queue[..n] == items;
      ReportsOfLog(convert, items);
    }
  }
}
