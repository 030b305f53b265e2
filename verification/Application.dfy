/** The handlers as the application runs them: they fetch rows, change them one at a time and send
    messages one at a time. Each is proved to do what its step of the protocol says. */
module Application {
  import opened Text
  import opened DidParser
  import opened Models
  import opened Protocol

  function TaskPrefix(files: seq<DatasetFile>, n: nat): seq<Task>
    requires n <= |files|
  {
    TasksOf(files[..n])
  }

  /** The rows among the first `n` that a query for a status and a dataset returns, in order. */
  function Select(requests: seq<Request>, status: TransformStatus, d: nat, n: nat): (ids: seq<nat>)
    requires n <= |requests|
    ensures forall i :: 0 <= i < |ids| ==>
      ids[i] < n && requests[ids[i]].status == status && requests[ids[i]].datasetId == d
    ensures forall r :: 0 <= r < n && requests[r].status == status && requests[r].datasetId == d ==> r in ids
    ensures forall i, j :: 0 <= i < j < |ids| ==> ids[i] < ids[j]
  {
    if n == 0 then []
    else
      var front := Select(requests, status, d, n - 1);
      if requests[n - 1].status == status && requests[n - 1].datasetId == d then front + [n - 1] else front
  }

  /** `now` is `before` with the rows in `ids` put through `change`. */
  ghost predicate Changed(before: seq<Request>, now: seq<Request>, ids: seq<nat>, change: Request -> Request) {
    && |now| == |before|
    && forall r :: 0 <= r < |before| ==> now[r] == if r in ids then change(before[r]) else before[r]
  }

  lemma ChangedNext(before: seq<Request>, now: seq<Request>, ids: seq<nat>, k: nat, change: Request -> Request)
    requires k < |ids| && Changed(before, now, ids[..k], change)
    requires forall i :: 0 <= i < |ids| ==> ids[i] < |before|
    requires forall i, j :: 0 <= i < j < |ids| ==> ids[i] < ids[j]
    ensures now[ids[k]] == before[ids[k]]
    ensures Changed(before, now[ids[k] := change(before[ids[k]])], ids[..k + 1], change)
  {
    assert ids[..k + 1] == ids[..k] + [ids[k]];
    assert ids[k] !in ids[..k];
  }

  /** Sends all files and lets the request run. */
  function Release(files: seq<DatasetFile>): Request -> Request {
    (q: Request) => q.Published(files).(status := Running)
  }

  lemma ReleaseNext(before: seq<Request>, now: seq<Request>, after: seq<Request>, ids: seq<nat>, k: nat,
                    files: seq<DatasetFile>)
    requires k < |ids| && Changed(before, now, ids[..k], Release(files))
    requires forall i :: 0 <= i < |ids| ==> ids[i] < |before|
    requires forall i, j :: 0 <= i < j < |ids| ==> ids[i] < ids[j]
    requires after == now[ids[k] := now[ids[k]].Published(files).(status := Running)]
    ensures Changed(before, after, ids[..k + 1], Release(files))
  {
    ChangedNext(before, now, ids, k, Release(files));
    assert Release(files)(before[ids[k]]) == now[ids[k]].Published(files).(status := Running);
  }

  /** `now` is `before` with the rows of dataset `d` in a status put through `change`. */
  ghost predicate ChangedWhere(before: seq<Request>, now: seq<Request>, status: TransformStatus, d: nat,
                               change: Request -> Request)
  {
    && |now| == |before|
    && forall r :: 0 <= r < |before| ==>
         now[r] == if before[r].status == status && before[r].datasetId == d then change(before[r]) else before[r]
  }

  lemma ChangedSelected(before: seq<Request>, now: seq<Request>, status: TransformStatus, d: nat,
                        change: Request -> Request)
    requires Changed(before, now, Select(before, status, d, |before|), change)
    ensures ChangedWhere(before, now, status, d, change)
  {
    var ids := Select(before, status, d, |before|);
    forall r | 0 <= r < |before|
      ensures r in ids <==> before[r].status == status && before[r].datasetId == d
    {
    }
  }

  /** Publishing to a pending request and then releasing one in lookup wakes either. */
  lemma RowReleased(before: Request, middle: Request, now: Request, d: nat, files: seq<DatasetFile>, count: int)
    requires middle == if before.status == PendingLookup && before.datasetId == d
                       then before.Published(files).(status := Running) else before
    requires now == if middle.status == Lookup && middle.datasetId == d then middle.(status := Running) else middle
    requires count > 0
    ensures now == Woken(before, d, files, count)
  {
  }

  class App {
    const config: Config
    var datasets: seq<Dataset>
    var requests: seq<Request>
    var nextFile: nat

    constructor (config: Config)
      ensures this.config == config && View() == Boot
    {
      this.config := config;
      datasets, requests, nextFile := [], [], 1;
    }

    function View(): Sys
      reads this
    {
      Sys(datasets, requests, nextFile)
    }

    // -------------------------------------------------------------- lookup_result_processor.py

    /** Sends one task per file. */
    method AddFilesToProcessingQueue(r: nat, files: seq<DatasetFile>)
      requires r < |requests|
      modifies this`requests
      ensures requests == old(requests)[r := old(requests)[r].(sent := old(requests)[r].sent + TasksOf(files))]
    {
      ghost var row := requests[r];
      var k := 0;
      assert row.sent + TaskPrefix(files, 0) == row.sent;
      while k < |files|
        invariant 0 <= k <= |files| && r < |requests|
        invariant requests == old(requests)[r := row.(sent := row.sent + TaskPrefix(files, k))]
      {
        requests := requests[r := requests[r].(sent := requests[r].sent + [TaskFor(files[k])])];
        assert row.sent + TaskPrefix(files, k + 1) == row.sent + TaskPrefix(files, k) + [TaskFor(files[k])];
        k := k + 1;
      }
      assert files[..|files|] == files;
    }

    // -------------------------------------------------------------- dataset_manager.py

    method PublishFiles(d: nat, r: nat)
      requires d < |datasets| && r < |requests|
      modifies this`requests
      ensures requests == old(requests)[r := old(requests)[r].Published(datasets[d].files)]
    {
      requests := requests[r := requests[r].(files := |datasets[d].files|)];
      AddFilesToProcessingQueue(r, datasets[d].files);
    }

    method AddFilesToDataset(d: nat, files: seq<DatasetFile>, running: seq<nat>)
      requires d < |datasets|
      requires forall i :: 0 <= i < |running| ==> running[i] < |requests|
      requires forall i, j :: 0 <= i < j < |running| ==> running[i] < running[j]
      modifies this`datasets, this`requests
      ensures datasets == old(datasets)[d := old(datasets)[d].(files := old(datasets)[d].files + files)]
      ensures Changed(old(requests), requests, running, (q: Request) => q.Extended(files))
    {
      datasets := datasets[d := datasets[d].(files := datasets[d].files + files)];
      ghost var change := (q: Request) => q.Extended(files);
      var k := 0;
      while k < |running|
        invariant 0 <= k <= |running|
        invariant datasets == old(datasets)[d := old(datasets)[d].(files := old(datasets)[d].files + files)]
        invariant Changed(old(requests), requests, running[..k], change)
      {
        var r := running[k];
        ghost var now := requests;
        ChangedNext(old(requests), now, running, k, change);
        requests := requests[r := requests[r].(files := requests[r].files + |files|)];
        AddFilesToProcessingQueue(r, files);
        assert requests == now[r := change(old(requests)[r])];
        k := k + 1;
      }
      assert running[..|running|] == running;
    }

    method FindDataset(name: string) returns (found: Option<nat>)
      ensures found == FindByName(datasets, name)
    {
      var k := 0;
      while k < |datasets|
        invariant 0 <= k <= |datasets|
        invariant forall i :: 0 <= i < k ==> datasets[i].name != name
      {
        if datasets[k].name == name {
          FirstMatch(datasets, name, k);
          return Some(k);
        }
        k := k + 1;
      }
      return None;
    }

    method FromCandidate(candidate: Dataset) returns (d: nat)
      modifies this
      ensures (View(), d) == FindOrCreate(old(View()), candidate)
      ensures d < |datasets| && requests == old(requests)
    {
      var found := FindDataset(candidate.name);
      match found
      case Some(i) => d := i;
      case None =>
        d := |datasets|;
        datasets, nextFile := datasets + [candidate], nextFile + |candidate.files|;
    }

    // -------------------------------------------------------------- submit.py

    method InitializeDatasetManager(did: string, fileList: seq<string>) returns (d: Option<nat>)
      modifies this
      ensures match ResolveDataset(config, old(View()), did, fileList)
        case None => d == None && View() == old(View())
        case Some((s1, i)) => d == Some(i) && View() == s1
    {
      if (did != "") == (fileList != []) {
        return None;
      }
      var i;
      if did != "" {
        var parsed := Parse(config.word, did, config.defaultScheme);
        if parsed.scheme !in config.validSchemes {
          return None;
        }
        i := FromCandidate(DidDataset(parsed));
      } else {
        i := FromCandidate(FileListDataset(config, View(), fileList));
      }
      return Some(i);
    }

    /** The lookup task names the finder and DID that the stored name parses to. */
    method SubmitLookupRequest(d: nat)
      requires d < |datasets| && datasets[d].status.Created? && datasets[d].didFinder != "user"
      modifies this`datasets
      ensures datasets == old(datasets)[d := DatasetAfterSubmit(config, old(datasets)[d])]
    {
      var parsed := Parse(config.word, datasets[d].name, "rucio");
      datasets := datasets[d := datasets[d].(
        lookupTasks := datasets[d].lookupTasks + [LookupTask(parsed.LookupTaskName(), parsed.did)])];
      datasets := datasets[d := datasets[d].(status := DatasetStatus.Looking)];
    }

    /** Saves the new request and serves it by the state of its dataset. */
    method Enter(d: nat) returns (response: Response)
      requires d < |datasets|
      modifies this`datasets, this`requests
      ensures datasets == old(datasets)[d := DatasetAfterSubmit(config, old(datasets)[d])]
      ensures requests == old(requests) + [RequestOn(old(datasets)[d], d)]
      ensures response ==
        if old(datasets)[d].status.Created? && old(datasets)[d].didFinder == "user" then ServerError else Ok
    {
      var r := |requests|;
      requests := requests + [NewRequest(d)];
      if datasets[d].status.Created? {
        if datasets[d].didFinder == "user" {
          return ServerError;
        }
        SubmitLookupRequest(d);
        requests := requests[r := requests[r].(status := Lookup)];
      } else if datasets[d].status.Complete? {
        PublishAndRun(d, r);
      } else {
        requests := requests[r := requests[r].(status := PendingLookup)];
      }
      return Ok;
    }

    method Submit(did: string, fileList: seq<string>, ready: bool) returns (response: Response)
      modifies this
      ensures (View(), response) == SubmitStep(config, old(View()), did, fileList, ready)
    {
      var manager := InitializeDatasetManager(did, fileList);
      if manager.None? {
        return Rejected;
      }
      if !ready {
        return ServerError;
      }
      response := Enter(manager.value);
    }

    // -------------------------------------------------------------- add_file_to_dataset.py

    method AddFiles(d: nat, posted: seq<seq<string>>) returns (response: Response)
      modifies this
      ensures (View(), response) == AddFilesStep(old(View()), d, posted)
    {
      if d >= |datasets| {
        return ServerError;
      }
      var running := Select(requests, Lookup, d, |requests|);
      var batch := NewFiles(nextFile, JoinedPaths(posted));
      nextFile := nextFile + |batch|;
      AddFilesToDataset(d, batch, running);
      assert requests == AddFilesStep(old(View()), d, posted).0.requests;
      return Ok;
    }

    // -------------------------------------------------------------- fileset_complete.py

    method FilesetComplete(d: nat, count: int) returns (response: Response)
      modifies this
      ensures (View(), response) == FilesetCompleteStep(old(View()), d, count)
    {
      if d >= |datasets| {
        return ServerError;
      }
      datasets := datasets[d := datasets[d].(nFiles := count)];
      datasets := datasets[d := datasets[d].(status := DatasetStatus.Complete)];
      if count > 0 {
        ReleaseWaiting(d, count);
      } else {
        EndWaiting(d, count);
      }
      assert requests == FilesetCompleteStep(old(View()), d, count).0.requests;
      assert datasets == FilesetCompleteStep(old(View()), d, count).0.datasets;
      return Ok;
    }

    /** The branch for a dataset with files: whoever waited gets them, and all run. */
    method ReleaseWaiting(d: nat, count: int)
      requires d < |datasets| && count > 0
      modifies this`requests
      ensures |requests| == |old(requests)|
      ensures forall r :: 0 <= r < |requests| ==> requests[r] == Woken(old(requests)[r], d, datasets[d].files, count)
    {
      PublishPending(d);
      ghost var middle := requests;
      SetStatus(Lookup, d, Running);
      forall r | 0 <= r < |requests| ensures requests[r] == Woken(old(requests)[r], d, datasets[d].files, count) {
        RowReleased(old(requests)[r], middle[r], requests[r], d, datasets[d].files, count);
      }
    }

    /** The branch for a dataset without files: whoever needed them is complete. */
    method EndWaiting(d: nat, count: int)
      requires d < |datasets| && count <= 0
      modifies this`requests
      ensures |requests| == |old(requests)|
      ensures forall r :: 0 <= r < |requests| ==> requests[r] == Woken(old(requests)[r], d, datasets[d].files, count)
    {
      EndLookups(d);
      SetStatus(PendingLookup, d, TransformStatus.Complete);
    }

    method PublishAndRun(d: nat, r: nat)
      requires d < |datasets| && r < |requests|
      modifies this`requests
      ensures requests == old(requests)[r := old(requests)[r].Published(datasets[d].files).(status := Running)]
    {
      PublishFiles(d, r);
      requests := requests[r := requests[r].(status := Running)];
    }

    /** Sends the whole dataset to each waiting request and lets it run. */
    method PublishPending(d: nat)
      requires d < |datasets|
      modifies this`requests
      ensures ChangedWhere(old(requests), requests, PendingLookup, d, Release(datasets[d].files))
    {
      var pending := Select(requests, PendingLookup, d, |requests|);
      PublishEach(d, pending);
      ChangedSelected(old(requests), requests, PendingLookup, d, Release(datasets[d].files));
    }

    method PublishEach(d: nat, pending: seq<nat>)
      requires d < |datasets|
      requires forall i :: 0 <= i < |pending| ==> pending[i] < |requests|
      requires forall i, j :: 0 <= i < j < |pending| ==> pending[i] < pending[j]
      modifies this`requests
      ensures Changed(old(requests), requests, pending, Release(datasets[d].files))
    {
      var k := 0;
      while k < |pending|
        invariant 0 <= k <= |pending|
        invariant Changed(old(requests), requests, pending[..k], Release(datasets[d].files))
      {
        ghost var now := requests;
        PublishAndRun(d, pending[k]);
        ReleaseNext(old(requests), now, requests, pending, k, datasets[d].files);
        k := k + 1;
      }
      assert pending[..|pending|] == pending;
    }

    method SetStatus(from: TransformStatus, d: nat, to: TransformStatus)
      modifies this`requests
      ensures ChangedWhere(old(requests), requests, from, d, (q: Request) => q.(status := to))
    {
      var ids := Select(requests, from, d, |requests|);
      ghost var change := (q: Request) => q.(status := to);
      var k := 0;
      while k < |ids|
        invariant 0 <= k <= |ids|
        invariant Changed(old(requests), requests, ids[..k], change)
      {
        var r := ids[k];
        ChangedNext(old(requests), requests, ids, k, change);
        requests := requests[r := requests[r].(status := to)];
        k := k + 1;
      }
      assert ids[..|ids|] == ids;
      ChangedSelected(old(requests), requests, from, d, change);
    }

    /** Completes each request in lookup and shuts its transformers down. */
    method EndLookups(d: nat)
      modifies this`requests
      ensures ChangedWhere(old(requests), requests, Lookup, d,
                           (q: Request) => q.(status := TransformStatus.Complete, shutdowns := q.shutdowns + 1))
    {
      var ids := Select(requests, Lookup, d, |requests|);
      ghost var change := (q: Request) => q.(status := TransformStatus.Complete, shutdowns := q.shutdowns + 1);
      var k := 0;
      while k < |ids|
        invariant 0 <= k <= |ids|
        invariant Changed(old(requests), requests, ids[..k], change)
      {
        var r := ids[k];
        ghost var now := requests;
        ChangedNext(old(requests), now, ids, k, change);
        requests := requests[r := requests[r].(status := TransformStatus.Complete)];
        requests := requests[r := requests[r].(shutdowns := requests[r].shutdowns + 1)];
        assert requests == now[r := change(old(requests)[r])];
        k := k + 1;
      }
      assert ids[..|ids|] == ids;
      ChangedSelected(old(requests), requests, Lookup, d, change);
    }

    // -------------------------------------------------------------- transformer_file_complete.py

    method RecordFileComplete(r: nat, report: Report) returns (found: bool)
      modifies this`requests
      ensures found == (r < |old(requests)|)
      ensures requests == if found then old(requests)[r := old(requests)[r].Counted(report)] else old(requests)
    {
      if r >= |requests| {
        return false;
      }
      if report.status == "success" {
        requests := requests[r := requests[r].(filesCompleted := requests[r].filesCompleted + 1)];
      } else {
        requests := requests[r := requests[r].(filesFailed := requests[r].filesFailed + 1)];
      }
      return true;
    }

    method SaveTransformResult(r: nat, report: Report)
      requires r < |requests|
      modifies this`requests
      ensures requests == old(requests)[r := old(requests)[r].Saved(report)]
    {
      requests := requests[r := requests[r].(results := requests[r].results + [report])];
    }

    method TransformComplete(r: nat, now: int)
      requires r < |requests|
      modifies this`requests
      ensures requests == old(requests)[r := old(requests)[r].Finished(now)]
    {
      requests := requests[r := requests[r].(status := TransformStatus.Complete)];
      requests := requests[r := requests[r].(finishTime := Some(now))];
      requests := requests[r := requests[r].(shutdowns := requests[r].shutdowns + 1)];
    }

    method FileComplete(r: nat, report: Report, now: int) returns (response: Response)
      modifies this
      ensures (View(), response) == FileCompleteStep(old(View()), r, report, now)
    {
      var found := RecordFileComplete(r, report);
      if !found {
        return NotFound;
      }
      SaveTransformResult(r, report);
      var remaining := requests[r].FilesRemaining();
      if remaining.Some? && remaining.value == 0 {
        TransformComplete(r, now);
      }
      assert requests == old(requests)[r := WithReport(old(requests)[r], report, now)];
      return Ok;
    }

    // -------------------------------------------------------------- cancel.py

    method Cancel(r: nat, cluster: Shutdown, now: int) returns (response: Response)
      modifies this
      ensures (View(), response) == CancelStep(old(View()), r, cluster, now)
    {
      if r >= |requests| {
        return NotFound;
      } else if requests[r].status.IsComplete() {
        return Rejected;
      }
      if requests[r].status.Running? {
        match cluster
        case Stopped => requests := requests[r := requests[r].(shutdowns := requests[r].shutdowns + 1)];
        case Missing =>
        case Refused => return ClusterError;
      }
      requests := requests[r := requests[r].(status := Canceled)];
      requests := requests[r := requests[r].(finishTime := Some(now))];
      assert requests == CancelStep(old(View()), r, cluster, now).0.requests;
      return Ok;
    }
  }
}
