/** What every step of the protocol keeps. */
module ProtocolInvariant {
  import opened Text
  import opened Bags
  import opened DidParser
  import opened Models
  import opened Protocol

  // ---------------------------------------------------------------- the invariant

  predicate DistinctIds(files: seq<DatasetFile>) {
    forall i, j :: 0 <= i < j < |files| ==> files[i].id != files[j].id
  }

  predicate DatasetOk(ds: Dataset, nextFile: nat) {
    && DistinctIds(ds.files)
    && (forall i :: 0 <= i < |ds.files| ==> 1 <= ds.files[i].id < nextFile)
    && match ds.status
       case Created => ds.files == [] && ds.lookupTasks == []
       case Looking => |ds.lookupTasks| == 1
       case Complete => |ds.lookupTasks| <= 1
  }

  /** The request was sent the dataset's files, each once, in order, up to some point. */
  predicate SentPrefix(ds: Dataset, r: Request) {
    |r.sent| <= |ds.files| && r.sent == TasksOf(ds.files[..|r.sent|])
  }

  /** The request was sent all files of the dataset, each once, in order. */
  predicate Delivered(ds: Dataset, r: Request) {
    r.sent == TasksOf(ds.files)
  }

  predicate CountersOk(r: Request) {
    && r.files == |r.sent|
    && r.filesCompleted == Successes(r.results)
    && r.filesCompleted + r.filesFailed == |r.results|
  }

  /** Every report is for a file that was sent, and no file is reported twice. */
  predicate ReportsOk(r: Request) {
    && (forall i, j :: 0 <= i < j < |r.results| ==> r.results[i].fileId != r.results[j].fileId)
    && r.ReportedIds() <= r.SentIds()
  }

  predicate StatusOk(ds: Dataset, r: Request) {
    match r.status
    case Submitted => r.sent == [] && ds.status.Created? && ds.didFinder == "user"
    case PendingLookup => r.sent == [] && ds.status.Looking?
    case Lookup => Delivered(ds, r) && ds.status.Looking?
    case Running => Delivered(ds, r) && ds.status.Complete?
    case Complete => true
    case Canceled => r.finishTime.Some?
    case Fatal => false
  }

  /** A request is finished by its reports exactly when none is missing. */
  predicate CompletionOk(r: Request) {
    && (r.files > 0 && |r.results| == r.files ==> r.status.Complete?)
    && (!r.status.IsComplete() ==> r.finishTime.None? && r.shutdowns == 0)
    && (r.status.Complete? && r.finishTime.Some? ==>
          r.files > 0 && |r.results| == r.files && r.shutdowns > 0)
  }

  predicate RequestOk(ds: Dataset, r: Request) {
    SentPrefix(ds, r) && CountersOk(r) && ReportsOk(r) && StatusOk(ds, r) && CompletionOk(r)
  }

  predicate AllDatasetsOk(s: Sys) {
    forall d :: 0 <= d < |s.datasets| ==> DatasetOk(s.datasets[d], s.nextFile)
  }

  predicate AllRequestsOk(s: Sys) {
    forall r :: 0 <= r < |s.requests| ==>
      s.requests[r].datasetId < |s.datasets| && RequestOk(s.datasets[s.requests[r].datasetId], s.requests[r])
  }

  predicate NamesUnique(s: Sys) {
    forall d, e :: 0 <= d < e < |s.datasets| ==> s.datasets[d].name != s.datasets[e].name
  }

  predicate OneInLookup(s: Sys) {
    forall q, r :: 0 <= q < r < |s.requests| && s.requests[q].status.Lookup? && s.requests[r].status.Lookup?
      ==> s.requests[q].datasetId != s.requests[r].datasetId
  }

  predicate Inv(s: Sys) {
    s.nextFile >= 1 && AllDatasetsOk(s) && AllRequestsOk(s) && NamesUnique(s) && OneInLookup(s)
  }

  // ---------------------------------------------------------------- counting tasks and reports

  lemma SentCardinality(ds: Dataset, r: Request)
    requires DistinctIds(ds.files) && SentPrefix(ds, r)
    ensures |r.SentIds()| == |r.sent|
  {
    var ids := seq(|r.sent|, i requires 0 <= i < |r.sent| => r.sent[i].fileId);
    assert forall i :: 0 <= i < |r.sent| ==> ids[i] == ds.files[i].id;
    assert forall x :: x in ids ==> x in r.SentIds();
    assert forall t :: t in r.sent ==> t.fileId in ids by {
      forall t | t in r.sent ensures t.fileId in ids {
        var i :| 0 <= i < |r.sent| && r.sent[i] == t;
        assert ids[i] == t.fileId;
      }
    }
    assert ToSet(ids) == r.SentIds();
    DistinctBySize(ids);
  }

  lemma ReportedCardinality(r: Request)
    requires ReportsOk(r)
    ensures |r.ReportedIds()| == |r.results|
  {
    var ids := seq(|r.results|, i requires 0 <= i < |r.results| => r.results[i].fileId);
    assert forall x :: x in ids ==> x in r.ReportedIds();
    assert forall t :: t in r.results ==> t.fileId in ids by {
      forall t | t in r.results ensures t.fileId in ids {
        var i :| 0 <= i < |r.results| && r.results[i] == t;
        assert ids[i] == t.fileId;
      }
    }
    assert ToSet(ids) == r.ReportedIds();
    DistinctBySize(ids);
  }

  /** The tasks ever sent are those reported and those outstanding; with files to do,
      the counter shown to users is the number outstanding. */
  lemma Conservation(ds: Dataset, r: Request)
    requires DistinctIds(ds.files) && RequestOk(ds, r)
    ensures r.files == |r.sent| == |r.Outstanding()| + r.filesCompleted + r.filesFailed
    ensures r.files > 0 ==> r.FilesRemaining() == Some(|r.Outstanding()|)
    ensures r.files == 0 ==> r.FilesRemaining() == None
  {
    SentCardinality(ds, r);
    ReportedCardinality(r);
    SubsetCardinality(r.ReportedIds(), r.SentIds());
  }

  lemma SuccessesSnoc(results: seq<Report>, report: Report)
    ensures Successes(results + [report]) == Successes(results) + if report.IsSuccess() then 1 else 0
  {
    assert (results + [report])[..|results|] == results;
  }

  // ---------------------------------------------------------------- preservation, row by row

  lemma PrefixSurvivesGrowth(ds: Dataset, batch: seq<DatasetFile>, r: Request)
    requires SentPrefix(ds, r)
    ensures SentPrefix(ds.(files := ds.files + batch), r)
  {
    assert (ds.files + batch)[..|r.sent|] == ds.files[..|r.sent|];
  }

  lemma TasksOfConcat(a: seq<DatasetFile>, b: seq<DatasetFile>)
    ensures TasksOf(a + b) == TasksOf(a) + TasksOf(b)
  {
  }

  lemma DeliveredIsPrefix(ds: Dataset, r: Request)
    requires Delivered(ds, r)
    ensures SentPrefix(ds, r)
  {
    assert ds.files[..|ds.files|] == ds.files;
  }

  lemma ResultsWithinSent(ds: Dataset, r: Request)
    requires DistinctIds(ds.files) && RequestOk(ds, r)
    ensures |r.results| <= |r.sent|
  {
    Conservation(ds, r);
  }

  /** A batch for the dataset reaches the request, or finds it not waiting for files. */
  lemma WithBatchOk(ds: Dataset, d: nat, r: Request, batch: seq<DatasetFile>)
    requires r.datasetId == d && ds.status.Looking?
    requires DistinctIds(ds.files) && RequestOk(ds, r)
    ensures RequestOk(ds.(files := ds.files + batch), WithBatch(r, d, batch))
  {
    var ds' := ds.(files := ds.files + batch);
    ResultsWithinSent(ds, r);
    if r.status.Lookup? {
      TasksOfConcat(ds.files, batch);
      var r' := r.Extended(batch);
      DeliveredIsPrefix(ds', r');
      assert r.sent <= r'.sent;
      assert forall t :: t in r.sent ==> t in r'.sent;
    } else {
      PrefixSurvivesGrowth(ds, batch, r);
    }
  }

  /** Declaring the file set complete leaves no request of the dataset waiting. */
  lemma WokenOk(ds: Dataset, d: nat, r: Request, count: int)
    requires r.datasetId == d && !ds.status.Created?
    requires DistinctIds(ds.files) && RequestOk(ds, r)
    ensures RequestOk(ds.(status := DatasetStatus.Complete, nFiles := count), Woken(r, d, ds.files, count))
    ensures !Woken(r, d, ds.files, count).status.Lookup?
    ensures !Woken(r, d, ds.files, count).status.PendingLookup?
  {
    ResultsWithinSent(ds, r);
    if count > 0 && r.status.PendingLookup? {
      assert r.sent + TasksOf(ds.files) == TasksOf(ds.files);
      DeliveredIsPrefix(ds, r.Published(ds.files));
    }
  }

  lemma WithReportOk(ds: Dataset, r: Request, report: Report, now: int)
    requires DistinctIds(ds.files) && RequestOk(ds, r)
    requires report.fileId in r.Outstanding()
    ensures RequestOk(ds, WithReport(r, report, now))
  {
    CountersNext(r, report);
    ReportOnce(r, report);
    SomeLeft(ds, r, report);
    JudgedOk(ds, r.Counted(report).Saved(report), now);
  }

  lemma CountersNext(r: Request, report: Report)
    requires CountersOk(r)
    ensures CountersOk(r.Counted(report).Saved(report))
  {
    SuccessesSnoc(r.results, report);
  }

  lemma SomeLeft(ds: Dataset, r: Request, report: Report)
    requires DistinctIds(ds.files) && RequestOk(ds, r)
    requires report.fileId in r.Outstanding()
    ensures r.files > |r.results|
  {
    Conservation(ds, r);
    assert r.Outstanding() != {};
  }

  /** Reading the counters after a report keeps the row in order. */
  lemma JudgedOk(ds: Dataset, r: Request, now: int)
    requires SentPrefix(ds, r) && CountersOk(r) && ReportsOk(r) && StatusOk(ds, r)
    requires 0 < |r.results| <= r.files
    requires !r.status.IsComplete() ==> r.finishTime.None? && r.shutdowns == 0
    requires r.status.Complete? && r.finishTime.Some? ==> |r.results| == r.files && r.shutdowns > 0
    ensures RequestOk(ds, Judged(r, now))
  {
  }

  lemma ReportOnce(r: Request, report: Report)
    requires ReportsOk(r) && report.fileId in r.Outstanding()
    ensures ReportsOk(r.Counted(report).Saved(report))
  {
    var r' := r.Counted(report).Saved(report);
    assert forall i :: 0 <= i < |r.results| ==> r.results[i] in r.results;
    assert r'.ReportedIds() == r.ReportedIds() + {report.fileId};
  }

  // ---------------------------------------------------------------- preservation, step by step

  lemma SubmitKeepsInv(c: Config, s: Sys, did: string, fileList: seq<string>, ready: bool)
    requires Inv(s)
    ensures Inv(SubmitStep(c, s, did, fileList, ready).0)
  {
    match ResolveDataset(c, s, did, fileList)
    case None =>
    case Some((s1, d)) =>
      ResolveKeepsInv(c, s, did, fileList);
      if ready {
        NewRequestKeepsInv(c, s1, d);
      }
  }

  lemma ResolveKeepsInv(c: Config, s: Sys, did: string, fileList: seq<string>)
    requires Inv(s) && ResolveDataset(c, s, did, fileList).Some?
    ensures Inv(ResolveDataset(c, s, did, fileList).value.0)
  {
    if did != "" {
      CreationKeepsInv(s, DidDataset(Parse(c.word, did, c.defaultScheme)));
    } else {
      CreationKeepsInv(s, FileListDataset(c, s, fileList));
    }
  }

  lemma CreationKeepsInv(s: Sys, candidate: Dataset)
    requires Inv(s) && DatasetOk(candidate, s.nextFile + |candidate.files|)
    ensures Inv(FindOrCreate(s, candidate).0)
  {
    var s1 := FindOrCreate(s, candidate).0;
    assert forall d :: 0 <= d < |s.datasets| ==> s1.datasets[d] == s.datasets[d];
    assert AllDatasetsOk(s1);
    assert AllRequestsOk(s1);
  }

  lemma NewRequestKeepsInv(c: Config, s: Sys, d: nat)
    requires Inv(s) && d < |s.datasets|
    ensures Inv(s.(datasets := s.datasets[d := DatasetAfterSubmit(c, s.datasets[d])],
                   requests := s.requests + [RequestOn(s.datasets[d], d)]))
  {
    var ds := s.datasets[d];
    var ds' := DatasetAfterSubmit(c, ds);
    var row := RequestOn(ds, d);
    var s' := s.(datasets := s.datasets[d := ds'], requests := s.requests + [row]);
    assert RequestOk(ds', row) by {
      assert [] + TasksOf(ds.files) == TasksOf(ds.files);
      assert ds.files[..|ds.files|] == ds.files;
    }
    forall r | 0 <= r < |s.requests| && s.requests[r].datasetId == d
      ensures RequestOk(ds', s.requests[r])
      ensures row.status.Lookup? ==> !s.requests[r].status.Lookup?
    {
      assert RequestOk(ds, s.requests[r]);
    }
    assert AllRequestsOk(s');
    assert AllDatasetsOk(s');
  }

  lemma AddFilesKeepsInv(s: Sys, d: nat, posted: seq<seq<string>>)
    requires Inv(s) && Enabled(s, AddFiles(d, posted))
    ensures Inv(AddFilesStep(s, d, posted).0)
  {
    if d < |s.datasets| {
      var s' := AddFilesStep(s, d, posted).0;
      var ds := s.datasets[d];
      var batch := NewFiles(s.nextFile, JoinedPaths(posted));
      assert DatasetOk(ds.(files := ds.files + batch), s'.nextFile);
      assert AllDatasetsOk(s');
      forall r | 0 <= r < |s.requests|
        ensures s'.requests[r].datasetId < |s'.datasets|
        ensures RequestOk(s'.datasets[s'.requests[r].datasetId], s'.requests[r])
      {
        assert s'.requests[r] == WithBatch(s.requests[r], d, batch);
        if s.requests[r].datasetId == d {
          WithBatchOk(ds, d, s.requests[r], batch);
        }
      }
      assert AllRequestsOk(s');
    }
  }

  lemma FilesetCompleteKeepsInv(s: Sys, d: nat, count: int)
    requires Inv(s) && Enabled(s, FilesetComplete(d, count))
    ensures Inv(FilesetCompleteStep(s, d, count).0)
  {
    if d < |s.datasets| {
      var s' := FilesetCompleteStep(s, d, count).0;
      var ds := s.datasets[d];
      forall r | 0 <= r < |s.requests|
        ensures s'.requests[r].datasetId < |s'.datasets|
        ensures RequestOk(s'.datasets[s'.requests[r].datasetId], s'.requests[r])
        ensures s'.requests[r].status.Lookup? ==> s'.requests[r] == s.requests[r]
      {
        assert s'.requests[r] == Woken(s.requests[r], d, ds.files, count);
        if s.requests[r].datasetId == d {
          WokenOk(ds, d, s.requests[r], count);
        }
      }
      assert AllRequestsOk(s');
      assert AllDatasetsOk(s');
      assert OneInLookup(s');
      assert NamesUnique(s');
    }
  }

  lemma FileCompleteKeepsInv(s: Sys, r: nat, report: Report, now: int)
    requires Inv(s) && Enabled(s, FileComplete(r, report, now))
    ensures Inv(FileCompleteStep(s, r, report, now).0)
  {
    if r < |s.requests| {
      var row := s.requests[r];
      WithReportOk(s.datasets[row.datasetId], row, report, now);
    }
  }

  lemma CancelKeepsInv(s: Sys, r: nat, cluster: Shutdown, now: int)
    requires Inv(s)
    ensures Inv(CancelStep(s, r, cluster, now).0)
  {
    var s' := CancelStep(s, r, cluster, now).0;
    if r < |s.requests| {
      assert RequestOk(s.datasets[s.requests[r].datasetId], s.requests[r]);
      assert RequestOk(s.datasets[s.requests[r].datasetId], s'.requests[r]);
    }
  }

  // ---------------------------------------------------------------- what a step leaves alone

  /** How a step may change dataset `d`: files are only ever appended, and only while it is looked up;
      the lookup status only advances. */
  predicate DatasetAdvances(before: Dataset, after: Dataset) {
    && after.name == before.name && after.didFinder == before.didFinder
    && before.files <= after.files
    && (before.files == after.files || before.status.Looking?)
    && (before.status.Complete? ==> after.status.Complete? && after.lookupTasks == before.lookupTasks)
    && (before.status.Looking? ==> !after.status.Created? && after.lookupTasks == before.lookupTasks)
  }

  /** A submission adds at most one dataset and one request, and changes no request. */
  lemma SubmitFrame(c: Config, s: Sys, did: string, fileList: seq<string>, ready: bool)
    ensures var s' := SubmitStep(c, s, did, fileList, ready).0;
      && |s.datasets| <= |s'.datasets| <= |s.datasets| + 1
      && s.requests <= s'.requests && |s'.requests| <= |s.requests| + 1
      && forall d :: 0 <= d < |s.datasets| ==>
           DatasetAdvances(s.datasets[d], s'.datasets[d]) && s'.datasets[d].files == s.datasets[d].files
    ensures var s' := SubmitStep(c, s, did, fileList, ready).0;
      forall d :: |s.datasets| <= d < |s'.datasets| ==> s'.datasets[d].status.Looking? ==> s'.datasets[d].files == []
  {
    match ResolveDataset(c, s, did, fileList)
    case None =>
    case Some((s1, d)) =>
      assert s1.requests == s.requests;
      assert forall e :: 0 <= e < |s.datasets| ==> s1.datasets[e] == s.datasets[e];
      assert |s1.datasets| <= |s.datasets| + 1;
      assert forall e :: |s.datasets| <= e < |s1.datasets| ==>
        !s1.datasets[e].status.Looking? && (s1.datasets[e].status.Created? ==> s1.datasets[e].files == []);
      if ready {
        var s' := SubmitStep(c, s, did, fileList, ready).0;
        assert s'.datasets == s1.datasets[d := DatasetAfterSubmit(c, s1.datasets[d])];
      }
  }

  lemma StepAdvancesDatasets(c: Config, s: Sys, a: Action, d: nat)
    requires Enabled(s, a) && d < |s.datasets|
    ensures d < |Step(c, s, a).datasets| && DatasetAdvances(s.datasets[d], Step(c, s, a).datasets[d])
    ensures !(a.AddFiles? && a.datasetId == d) ==> Step(c, s, a).datasets[d].files == s.datasets[d].files
    ensures a.AddFiles? && a.datasetId == d ==>
      |Step(c, s, a).datasets[d].files| == |s.datasets[d].files| + |a.posted|
    ensures a.FilesetComplete? && a.datasetId == d ==> Step(c, s, a).datasets[d].status.Complete?
  {
    if a.Submit? {
      SubmitFrame(c, s, a.did, a.fileList, a.ready);
    }
  }

  /** A step changes no request but those it is about. */
  lemma StepFrame(c: Config, s: Sys, a: Action, r: nat)
    requires r < |s.requests|
    ensures r < |Step(c, s, a).requests|
    ensures Step(c, s, a).requests[r] == s.requests[r]
      || (a.AddFiles? && a.datasetId == s.requests[r].datasetId && s.requests[r].status.Lookup?)
      || (a.FilesetComplete? && a.datasetId == s.requests[r].datasetId
          && (s.requests[r].status.Lookup? || s.requests[r].status.PendingLookup?))
      || (a.FileComplete? && a.requestId == r)
      || (a.Cancel? && a.requestId == r && !s.requests[r].status.IsComplete())
  {
    if a.Submit? {
      SubmitFrame(c, s, a.did, a.fileList, a.ready);
    }
  }

  /** Every step of the protocol keeps the invariant. */
  lemma StepKeepsInv(c: Config, s: Sys, a: Action)
    requires Inv(s) && Enabled(s, a)
    ensures Inv(Step(c, s, a))
  {
    match a
    case Submit(did, fileList, ready) => SubmitKeepsInv(c, s, did, fileList, ready);
    case AddFiles(d, posted) => AddFilesKeepsInv(s, d, posted);
    case FilesetComplete(d, count) => FilesetCompleteKeepsInv(s, d, count);
    case FileComplete(r, report, now) => FileCompleteKeepsInv(s, r, report, now);
    case Cancel(r, cluster, now) => CancelKeepsInv(s, r, cluster, now);
  }

  /** Every reachable state satisfies the invariant. */
  lemma {:induction false} ReachableInv(c: Config, h: History)
    requires Lawful(c, h)
    ensures Inv(State(c, h))
  {
    if h.Then? {
      ReachableInv(c, h.past);
      StepKeepsInv(c, State(c, h.past), h.action);
    }
  }
}
