/** What holds over every lawful run of the protocol. */
module ProtocolTheorems {
  import opened Text
  import opened Bags
  import opened DidParser
  import opened Models
  import opened Protocol
  import opened ProtocolInvariant

  predicate HasRequest(c: Config, h: History, r: nat) {
    r < |State(c, h).requests|
  }

  function RequestAt(c: Config, h: History, r: nat): Request
    requires HasRequest(c, h, r)
  {
    State(c, h).requests[r]
  }

  function DatasetAt(c: Config, h: History, r: nat): Dataset
    requires Lawful(c, h) && HasRequest(c, h, r)
  {
    ReachableInv(c, h);
    State(c, h).datasets[RequestAt(c, h, r).datasetId]
  }

  // ---------------------------------------------------------------- three routes, one result

  /** Whether a request started the lookup, waited for it or came after it, when it runs it was sent
      the dataset's files: two running requests of one dataset were sent the same tasks. */
  lemma ThreeRoutesAgree(c: Config, h: History, q: nat, r: nat)
    requires Lawful(c, h) && HasRequest(c, h, q) && HasRequest(c, h, r)
    requires RequestAt(c, h, q).status.Running? && RequestAt(c, h, r).status.Running?
    requires RequestAt(c, h, q).datasetId == RequestAt(c, h, r).datasetId
    ensures RequestAt(c, h, q).sent == RequestAt(c, h, r).sent == TasksOf(DatasetAt(c, h, q).files)
    ensures RequestAt(c, h, q).files == RequestAt(c, h, r).files == |DatasetAt(c, h, q).files|
  {
    ReachableInv(c, h);
  }

  /** While the lookup goes on, the request that started it was sent all files found so far,
      and those that wait for it nothing. */
  lemma SentDuringLookup(c: Config, h: History, r: nat)
    requires Lawful(c, h) && HasRequest(c, h, r)
    ensures RequestAt(c, h, r).status.Lookup? ==>
      DatasetAt(c, h, r).status.Looking? && RequestAt(c, h, r).sent == TasksOf(DatasetAt(c, h, r).files)
    ensures RequestAt(c, h, r).status.PendingLookup? ==>
      DatasetAt(c, h, r).status.Looking? && RequestAt(c, h, r).sent == []
  {
    ReachableInv(c, h);
  }

  lemma RowBatches(row: Request, d: nat, a: seq<DatasetFile>, b: seq<DatasetFile>)
    ensures WithBatch(WithBatch(row, d, a), d, b) == WithBatch(row, d, a + b)
  {
    TasksOfConcat(a, b);
    assert row.sent + TasksOf(a) + TasksOf(b) == row.sent + (TasksOf(a) + TasksOf(b));
  }

  /** What posting a batch leaves, row by row. */
  lemma PostedState(s: Sys, d: nat, posted: seq<seq<string>>)
    requires d < |s.datasets|
    ensures var s', batch := AddFilesStep(s, d, posted).0, NewFiles(s.nextFile, JoinedPaths(posted));
      && s'.nextFile == s.nextFile + |batch| && |batch| == |posted|
      && s'.datasets == s.datasets[d := s.datasets[d].(files := s.datasets[d].files + batch)]
      && |s'.requests| == |s.requests|
      && forall r :: 0 <= r < |s.requests| ==> s'.requests[r] == WithBatch(s.requests[r], d, batch)
  {
  }

  lemma NewFilesConcat(first: nat, p: seq<seq<string>>, q: seq<seq<string>>)
    ensures NewFiles(first, JoinedPaths(p + q))
         == NewFiles(first, JoinedPaths(p)) + NewFiles(first + |p|, JoinedPaths(q))
  {
  }

  /** Posting files in two batches is the same as posting them in one. */
  lemma BatchesConcatenate(c: Config, s: Sys, d: nat, p: seq<seq<string>>, q: seq<seq<string>>)
    ensures Step(c, Step(c, s, AddFiles(d, p)), AddFiles(d, q)) == Step(c, s, AddFiles(d, p + q))
  {
    if d < |s.datasets| {
      var middle, right := AddFilesStep(s, d, p).0, AddFilesStep(s, d, p + q).0;
      var left := AddFilesStep(middle, d, q).0;
      var a, b := NewFiles(s.nextFile, JoinedPaths(p)), NewFiles(s.nextFile + |p|, JoinedPaths(q));
      PostedState(s, d, p);
      PostedState(middle, d, q);
      PostedState(s, d, p + q);
      NewFilesConcat(s.nextFile, p, q);
      assert s.datasets[d].files + a + b == s.datasets[d].files + (a + b);
      forall r | 0 <= r < |s.requests| ensures left.requests[r] == right.requests[r] {
        RowBatches(s.requests[r], d, a, b);
      }
      assert left.requests == right.requests;
      assert left.datasets == right.datasets;
    }
  }

  /** The request that is looked up gets one new task for each posted file, in order, and a task
      carries the replicas that were posted exactly when they are some and free of commas. */
  lemma PostedReplicasArrive(c: Config, s: Sys, d: nat, posted: seq<seq<string>>, r: nat, i: nat)
    requires d < |s.datasets| && r < |s.requests| && i < |posted|
    requires s.requests[r].status.Lookup? && s.requests[r].datasetId == d
    ensures var before, after := s.requests[r].sent, Step(c, s, AddFiles(d, posted)).requests[r].sent;
      && |after| == |before| + |posted| && before <= after
      && after[|before| + i].fileId == s.nextFile + i
      && (after[|before| + i].paths == posted[i]
          <==> posted[i] != [] && forall k :: 0 <= k < |posted[i]| ==> ',' !in posted[i][k])
  {
    SplitUndoesJoin(posted[i], ',');
  }

  lemma NewListIsPublished(c: Config, s: Sys, fileList: seq<string>)
    requires fileList != [] && FindByName(s.datasets, c.digest(Join(fileList, ' '))).None?
    ensures var (s', response) := SubmitStep(c, s, "", fileList, true);
      && response.Ok? && |s'.requests| == |s.requests| + 1
      && s'.requests[|s.requests|] ==
           NewRequest(|s.datasets|).Published(NewFiles(s.nextFile, fileList)).(status := Running)
  {
    var ds := FileListDataset(c, s, fileList);
    assert ResolveDataset(c, s, "", fileList).value.0.datasets[|s.datasets|] == ds;
  }

  lemma OneEntryOnePath(entry: string)
    ensures Split(entry, ',') == [entry] <==> ',' !in entry
  {
    SplitUndoesJoin([entry], ',');
    assert Join([entry], ',') == entry;
    assert ',' in [entry][0] ==> ',' in entry;
  }

  // ---------------------------------------------------------------- the lookup task

  lemma LookupTaskNameInjective(d: Did, e: Did)
    ensures d.LookupTaskName() == e.LookupTaskName() <==> d.scheme == e.scheme
  {
    var q, r := d.MicroserviceQueue(), e.MicroserviceQueue();
    if d.LookupTaskName() == e.LookupTaskName() {
      assert q == d.LookupTaskName()[..|q|] && r == e.LookupTaskName()[..|r|];
      assert q[11..] == d.scheme && r[11..] == e.scheme;
    }
  }

  /** A submission of a new DID has its lookup started, once, and the task asks the finder of the submitted
      scheme for the submitted DID exactly when the text named its scheme, or it holds no newline and
      the default scheme is a word. */
  lemma LookupAsksForSubmittedDid(c: Config, s: Sys, did: string)
    requires !c.word(':') && did != ""
    requires var d := Parse(c.word, did, c.defaultScheme);
      d.scheme in c.validSchemes && FindByName(s.datasets, d.FullDid()).None?
    ensures var d, (s', response) := Parse(c.word, did, c.defaultScheme), SubmitStep(c, s, did, [], true);
      && |s'.datasets| == |s.datasets| + 1
      && |s'.datasets[|s.datasets|].lookupTasks| == (if d.scheme == "user" then 0 else 1)
      && (response.Ok? <==> d.scheme != "user")
      && (s'.datasets[|s.datasets|].lookupTasks == [LookupTask(d.LookupTaskName(), d.did)]
          <==> d.scheme != "user"
               && (Match(c.word, did).Some? || (IsWord(c.word, c.defaultScheme) && '\n' !in did)))
  {
    var d := Parse(c.word, did, c.defaultScheme);
    FullDidRoundTrip(c.word, did, c.defaultScheme, "rucio");
    var e := Parse(c.word, d.FullDid(), "rucio");
    LookupTaskNameInjective(d, e);
    NewDidStep(c, s, did);
    assert d.scheme != "user" ==>
      DatasetAfterSubmit(c, DidDataset(d)).lookupTasks == [LookupTask(e.LookupTaskName(), e.did)];
  }

  lemma NewDidStep(c: Config, s: Sys, did: string)
    requires did != ""
    requires var d := Parse(c.word, did, c.defaultScheme);
      d.scheme in c.validSchemes && FindByName(s.datasets, d.FullDid()).None?
    ensures var d, (s', response) := Parse(c.word, did, c.defaultScheme), SubmitStep(c, s, did, [], true);
      && s'.datasets == s.datasets + [DatasetAfterSubmit(c, DidDataset(d))]
      && (response.Ok? <==> d.scheme != "user")
  {
    var d := Parse(c.word, did, c.defaultScheme);
    assert ResolveDataset(c, s, did, []) ==
      Some((s.(datasets := s.datasets + [DidDataset(d)]), |s.datasets|));
  }

  lemma {:induction false} NameForever(c: Config, h: History, later: History, d: nat)
    requires Lawful(c, later) && Continues(h, later) && d < |State(c, h).datasets|
    ensures d < |State(c, later).datasets|
    ensures State(c, later).datasets[d].name == State(c, h).datasets[d].name
  {
    if h != later {
      NameForever(c, h, later.past, d);
      StepAdvancesDatasets(c, State(c, later.past), later.action, d);
    }
  }

  /** All submissions of one DID, however it is spelled and whatever happens in between, get the
      same dataset. */
  lemma OneDatasetPerDid(c: Config, h: History, later: History, did: string, other: string, ready: bool)
    requires Lawful(c, later) && Continues(Then(h, Submit(did, [], ready)), later)
    requires did != "" && Parse(c.word, did, c.defaultScheme).scheme in c.validSchemes
    requires other != "" && Parse(c.word, other, c.defaultScheme).scheme in c.validSchemes
    requires Parse(c.word, did, c.defaultScheme).FullDid() == Parse(c.word, other, c.defaultScheme).FullDid()
    ensures ResolveDataset(c, State(c, h), did, []).value.1 == ResolveDataset(c, State(c, later), other, []).value.1
  {
    var submitted := Then(h, Submit(did, [], ready));
    var d := ResolveDataset(c, State(c, h), did, []).value.1;
    SubmissionNames(c, State(c, h), did, ready);
    NameForever(c, submitted, later, d);
    ReachableInv(c, later);
    FoundByName(State(c, later), d);
  }

  lemma SubmissionNames(c: Config, s: Sys, did: string, ready: bool)
    requires did != "" && Parse(c.word, did, c.defaultScheme).scheme in c.validSchemes
    ensures var d, s' := ResolveDataset(c, s, did, []).value.1, Step(c, s, Submit(did, [], ready));
      d < |s'.datasets| && s'.datasets[d].name == Parse(c.word, did, c.defaultScheme).FullDid()
  {
    var (s1, d) := ResolveDataset(c, s, did, []).value;
    assert s1.datasets[d].name == Parse(c.word, did, c.defaultScheme).FullDid();
    assert DatasetAfterSubmit(c, s1.datasets[d]).name == s1.datasets[d].name;
  }

  lemma FoundByName(s: Sys, d: nat)
    requires NamesUnique(s) && d < |s.datasets|
    ensures FindByName(s.datasets, s.datasets[d].name) == Some(d)
  {
  }

  // ---------------------------------------------------------------- no stranded waiter

  lemma {:induction false} LookupDoneForever(c: Config, h: History, later: History, d: nat)
    requires Lawful(c, later) && Continues(h, later)
    requires d < |State(c, h).datasets| && State(c, h).datasets[d].status.Complete?
    ensures d < |State(c, later).datasets| && State(c, later).datasets[d].status.Complete?
    ensures State(c, later).datasets[d].files == State(c, h).datasets[d].files
  {
    if h != later {
      LookupDoneForever(c, h, later.past, d);
      StepAdvancesDatasets(c, State(c, later.past), later.action, d);
    }
  }

  /** A dataset has its lookup started at most once and at most one request in the lookup state, and
      requests wait for it only while it is being looked up. */
  lemma OneLookupPerDataset(c: Config, h: History, d: nat, q: nat, r: nat)
    requires Lawful(c, h) && d < |State(c, h).datasets| && HasRequest(c, h, q) && HasRequest(c, h, r)
    ensures |State(c, h).datasets[d].lookupTasks| <= 1
    ensures var p := RequestAt(c, h, q);
      p.datasetId == d && (p.status.Lookup? || p.status.PendingLookup?) ==>
        State(c, h).datasets[d].status.Looking? && |State(c, h).datasets[d].lookupTasks| == 1
    ensures q != r && RequestAt(c, h, q).status.Lookup? && RequestAt(c, h, r).status.Lookup? ==>
      RequestAt(c, h, q).datasetId != RequestAt(c, h, r).datasetId
  {
    ReachableInv(c, h);
    assert DatasetOk(State(c, h).datasets[d], State(c, h).nextFile);
  }

  /** Once the file set of a dataset was declared complete, no request ever waits for it again, each runs
      or has ended, and no further lookup of it is started. */
  lemma NoStrandedWaiter(c: Config, h: History, d: nat, count: int, later: History)
    requires d < |State(c, h).datasets|
    requires var closed := Then(h, FilesetComplete(d, count));
      Lawful(c, later) && Continues(closed, later)
    ensures d < |State(c, later).datasets| && |State(c, later).datasets[d].lookupTasks| <= 1
    ensures forall r :: 0 <= r < |State(c, later).requests| && State(c, later).requests[r].datasetId == d ==>
      State(c, later).requests[r].status.Running? || State(c, later).requests[r].status.IsComplete()
  {
    LookupDoneForever(c, Then(h, FilesetComplete(d, count)), later, d);
    ReachableInv(c, later);
    forall r | 0 <= r < |State(c, later).requests| && State(c, later).requests[r].datasetId == d
      ensures State(c, later).requests[r].status.Running? || State(c, later).requests[r].status.IsComplete()
    {
      assert RequestOk(State(c, later).datasets[d], State(c, later).requests[r]);
    }
  }

  /** Declaring a complete file set complete again changes no request and sends no task. */
  lemma RepeatedFilesetComplete(c: Config, h: History, d: nat, count: int)
    requires Lawful(c, h) && d < |State(c, h).datasets| && State(c, h).datasets[d].status.Complete?
    ensures Step(c, State(c, h), FilesetComplete(d, count)).requests == State(c, h).requests
    ensures Step(c, State(c, h), FilesetComplete(d, count)).datasets
         == State(c, h).datasets[d := State(c, h).datasets[d].(nFiles := count)]
  {
    ReachableInv(c, h);
  }

  // ---------------------------------------------------------------- terminal is permanent

  /** What a step may do to a request that has ended. */
  predicate StillEnded(before: Request, after: Request) {
    && after.status.IsComplete()
    && after.datasetId == before.datasetId && after.files == before.files && after.sent == before.sent
    && before.results <= after.results
    && (after.status == before.status || (after.status.Complete? && |after.results| == after.files > 0))
  }

  lemma StepKeepsEnded(c: Config, s: Sys, a: Action, r: nat)
    requires Inv(s) && Enabled(s, a) && r < |s.requests| && s.requests[r].status.IsComplete()
    ensures r < |Step(c, s, a).requests| && StillEnded(s.requests[r], Step(c, s, a).requests[r])
  {
    StepFrame(c, s, a, r);
    if a.FileComplete? && a.requestId == r {
      SuccessesSnoc(s.requests[r].results, a.report);
      assert RequestOk(s.datasets[s.requests[r].datasetId], s.requests[r]);
    }
  }

  /** A request that ended stays ended for the rest of every run: its tasks and number of files
      never change, and its status changes at most to complete, once all its files are reported. */
  lemma {:induction false} TerminalIsPermanent(c: Config, h: History, later: History, r: nat)
    requires Lawful(c, later) && Continues(h, later)
    requires HasRequest(c, h, r) && RequestAt(c, h, r).status.IsComplete()
    ensures HasRequest(c, later, r) && StillEnded(RequestAt(c, h, r), RequestAt(c, later, r))
  {
    if h != later {
      TerminalIsPermanent(c, h, later.past, r);
      ReachableInv(c, later.past);
      StepKeepsEnded(c, State(c, later.past), later.action, r);
      ReachableInv(c, later);
      ResultsWithinSent(DatasetAt(c, later, r), RequestAt(c, later, r));
    }
  }

  /** Once a request runs or has ended, no further task is ever sent for it. */
  lemma {:induction false} SentIsFinal(c: Config, h: History, later: History, r: nat)
    requires Lawful(c, later) && Continues(h, later) && HasRequest(c, h, r)
    requires RequestAt(c, h, r).status.Running? || RequestAt(c, h, r).status.IsComplete()
    ensures HasRequest(c, later, r)
    ensures RequestAt(c, later, r).status.Running? || RequestAt(c, later, r).status.IsComplete()
    ensures RequestAt(c, later, r).sent == RequestAt(c, h, r).sent
    ensures RequestAt(c, h, r).results <= RequestAt(c, later, r).results
  {
    if h != later {
      SentIsFinal(c, h, later.past, r);
      StepFrame(c, State(c, later.past), later.action, r);
    }
  }

  /** A request that once ran is complete only with a finish time: only its reports complete it. */
  lemma {:induction false} OnlyReportsFinish(c: Config, h: History, later: History, r: nat)
    requires Lawful(c, later) && Continues(h, later) && HasRequest(c, h, r)
    requires RequestAt(c, h, r).status.Running?
    ensures HasRequest(c, later, r)
    ensures var q := RequestAt(c, later, r); q.status.Running? || (q.status.IsComplete() && q.finishTime.Some?)
  {
    if h != later {
      OnlyReportsFinish(c, h, later.past, r);
      StepFrame(c, State(c, later.past), later.action, r);
    }
  }

  /** Declaring a dataset empty ends every request that waits for it: nothing is sent any more, and
      the transformers of the one that started the lookup are shut down, those of the others not. */
  lemma EmptyDatasetEnds(c: Config, h: History, d: nat, count: int, r: nat)
    requires Lawful(c, Then(h, FilesetComplete(d, count))) && count <= 0
    requires HasRequest(c, h, r) && RequestAt(c, h, r).datasetId == d
    requires RequestAt(c, h, r).status.Lookup? || RequestAt(c, h, r).status.PendingLookup?
    ensures var q, q' := RequestAt(c, h, r), Step(c, State(c, h), FilesetComplete(d, count)).requests[r];
      && q'.status.Complete? && q'.finishTime.None? && q'.sent == q.sent
      && q'.shutdowns == if q.status.Lookup? then 1 else 0
  {
    ReachableInv(c, h);
  }

  /** A request that ended before anything was sent for it never changes again. */
  lemma {:induction false} EndedUnsentStays(c: Config, h: History, later: History, r: nat)
    requires Lawful(c, later) && Continues(h, later) && HasRequest(c, h, r)
    requires RequestAt(c, h, r).status.IsComplete() && RequestAt(c, h, r).sent == []
    ensures HasRequest(c, later, r) && RequestAt(c, later, r) == RequestAt(c, h, r)
  {
    if h != later {
      EndedUnsentStays(c, h, later.past, r);
      StepFrame(c, State(c, later.past), later.action, r);
    }
  }

  /** Among the requests that an empty dataset ends, those that waited for another's lookup stay as they
      are in every continuation, so their transformers are never shut down. */
  lemma WaiterIsNeverShutDown(c: Config, h: History, later: History, d: nat, count: int, r: nat)
    requires Lawful(c, later) && Continues(Then(h, FilesetComplete(d, count)), later) && count <= 0
    requires Lawful(c, Then(h, FilesetComplete(d, count)))
    requires HasRequest(c, h, r) && RequestAt(c, h, r).datasetId == d && RequestAt(c, h, r).status.PendingLookup?
    ensures HasRequest(c, later, r) && RequestAt(c, later, r).status.Complete?
    ensures RequestAt(c, later, r).shutdowns == 0 && RequestAt(c, later, r).finishTime.None?
    ensures RequestAt(c, later, r).sent == [] && RequestAt(c, later, r).results == []
  {
    EmptyDatasetEnds(c, h, d, count, r);
    SentDuringLookup(c, h, r);
    EndedUnsentStays(c, Then(h, FilesetComplete(d, count)), later, r);
    AllReportedIsComplete(c, later, r);
  }

  /** A cancellation is rejected for a request that has ended, and fails for a running one that the
      cluster refuses to stop; then nothing changes. Any other is accepted and changes nothing but
      the status, the finish time and, if a running job was stopped, the shutdowns of the request. */
  lemma CancelAccepted(c: Config, h: History, r: nat, cluster: Shutdown, now: int)
    requires Lawful(c, h) && HasRequest(c, h, r)
    ensures var q, s, (s', response) := RequestAt(c, h, r), State(c, h), CancelStep(State(c, h), r, cluster, now);
      && (response.Rejected? <==> q.status.Complete? || q.status.Canceled?)
      && (response.ClusterError? <==> q.status.Running? && cluster.Refused?)
      && (response.Ok? <==> !q.status.IsComplete() && !(q.status.Running? && cluster.Refused?))
      && (!response.Ok? ==> s' == s)
      && (response.Ok? ==>
            && s'.datasets == s.datasets && |s'.requests| == |s.requests|
            && (forall i :: 0 <= i < |s.requests| && i != r ==> s'.requests[i] == s.requests[i])
            && var q' := s'.requests[r];
               && q'.status.Canceled? && q'.finishTime == Some(now)
               && q'.sent == q.sent && q'.results == q.results && q'.files == q.files
               && q'.shutdowns == if q.status.Running? && cluster.Stopped? then 1 else 0)
  {
    ReachableInv(c, h);
    assert RequestOk(State(c, h).datasets[RequestAt(c, h, r).datasetId], RequestAt(c, h, r));
  }

  /** A cancellation is final for a request that has not ended, unless the cluster refuses to stop it: in
      no continuation is a further task sent for it, and it is canceled, or complete because all it
      was sent before was still reported. */
  lemma CancelIsFinal(c: Config, h: History, later: History, r: nat, cluster: Shutdown, now: int)
    requires Lawful(c, later) && Continues(Then(h, Cancel(r, cluster, now)), later)
    requires Lawful(c, h) && HasRequest(c, h, r)
    requires !RequestAt(c, h, r).status.IsComplete()
    requires !(RequestAt(c, h, r).status.Running? && cluster.Refused?)
    ensures HasRequest(c, later, r) && RequestAt(c, later, r).sent == RequestAt(c, h, r).sent
    ensures var q := RequestAt(c, later, r);
      q.status.Canceled? || (q.status.Complete? && q.Outstanding() == {} && q.sent != [])
  {
    var canceled := Then(h, Cancel(r, cluster, now));
    CancelAccepted(c, h, r, cluster, now);
    assert RequestAt(c, canceled, r).status.Canceled?;
    TerminalIsPermanent(c, canceled, later, r);
    AllReportedIsComplete(c, later, r);
  }

  // ---------------------------------------------------------------- reports and completion

  /** Over whole runs nothing is lost: tasks sent are tasks reported and tasks outstanding, and a
      request all of whose tasks were reported is complete, however the reports were interleaved
      with other steps, cancellation included. */
  lemma AllReportedIsComplete(c: Config, h: History, r: nat)
    requires Lawful(c, h) && HasRequest(c, h, r)
    ensures var q := RequestAt(c, h, r);
      && q.files == |q.sent| == |q.Outstanding()| + q.filesCompleted + q.filesFailed
      && |q.results| == q.filesCompleted + q.filesFailed && q.filesCompleted == Successes(q.results)
      && (q.files > 0 && q.Outstanding() == {} ==> q.status.Complete?)
      && (q.status.Complete? && q.finishTime.Some? ==> q.files > 0 && q.Outstanding() == {})
  {
    ReachableInv(c, h);
    Conservation(DatasetAt(c, h, r), RequestAt(c, h, r));
  }

  /** A report is saved and counted by its status word. It completes the request, at its own time and with
      one more shutdown, exactly when it is for the last outstanding file, whatever the status was,
      cancellation included; any other report leaves status, finish time and transformers alone. */
  lemma LastReportCompletes(c: Config, h: History, r: nat, report: Report, now: int)
    requires Lawful(c, Then(h, FileComplete(r, report, now))) && HasRequest(c, h, r)
    ensures var q, q' := RequestAt(c, h, r), Step(c, State(c, h), FileComplete(r, report, now)).requests[r];
      && q'.Outstanding() == q.Outstanding() - {report.fileId}
      && q'.results == q.results + [report] && q'.sent == q.sent && q'.files == q.files
      && q'.filesCompleted == q.filesCompleted + (if report.status == "success" then 1 else 0)
      && q'.filesFailed == q.filesFailed + (if report.status == "success" then 0 else 1)
      && (if q.Outstanding() == {report.fileId}
          then q'.status.Complete? && q'.finishTime == Some(now) && q'.shutdowns == q.shutdowns + 1
          else q'.status == q.status && q'.finishTime == q.finishTime && q'.shutdowns == q.shutdowns)
  {
    var q := RequestAt(c, h, r);
    ReachableInv(c, h);
    Conservation(DatasetAt(c, h, r), q);
    OneLeft(q.Outstanding(), report.fileId);
    ReportSettles(q, report, now);
    ReportOutcome(q, report, now);
  }

  lemma OneLeft(ids: set<nat>, id: nat)
    requires id in ids
    ensures |ids| == 1 <==> ids == {id}
  {
    assert ids == {id} + (ids - {id});
    assert |ids - {id}| == 0 ==> ids - {id} == {};
  }

  lemma ReportOutcome(q: Request, report: Report, now: int)
    requires q.files > 0
    ensures var q', remaining := WithReport(q, report, now), q.files - q.filesCompleted - q.filesFailed;
      && q'.results == q.results + [report]
      && q'.filesCompleted == q.filesCompleted + (if report.status == "success" then 1 else 0)
      && q'.filesFailed == q.filesFailed + (if report.status == "success" then 0 else 1)
      && (if remaining == 1
          then q'.status.Complete? && q'.finishTime == Some(now) && q'.shutdowns == q.shutdowns + 1
          else q'.status == q.status && q'.finishTime == q.finishTime && q'.shutdowns == q.shutdowns)
  {
  }

  lemma {:induction false} ContinuesFurther(h: History, middle: History, later: History)
    requires Continues(h, middle) && Continues(middle, later)
    ensures Continues(h, later)
  {
    if middle != later {
      ContinuesFurther(h, middle, later.past);
    }
  }

  lemma ReportSettles(q: Request, report: Report, now: int)
    ensures var q' := WithReport(q, report, now);
      q'.sent == q.sent && q'.files == q.files && q'.Outstanding() == q.Outstanding() - {report.fileId}
  {
    assert WithReport(q, report, now).ReportedIds() == q.ReportedIds() + {report.fileId};
  }

  /** No request with files is ever stuck: from every reachable state, whatever its status, there is
      a continuation in which it is complete, namely one in which its outstanding files are reported. */
  lemma {:induction false} NeverStuck(c: Config, h: History, r: nat) returns (later: History)
    requires Lawful(c, h) && HasRequest(c, h, r) && RequestAt(c, h, r).files > 0
    ensures Lawful(c, later) && Continues(h, later) && HasRequest(c, later, r)
    ensures RequestAt(c, later, r).status.Complete? && RequestAt(c, later, r).sent == RequestAt(c, h, r).sent
    decreases |RequestAt(c, h, r).Outstanding()|
  {
    var q := RequestAt(c, h, r);
    if q.Outstanding() == {} {
      AllReportedIsComplete(c, h, r);
      later := h;
    } else {
      var id :| id in q.Outstanding();
      var report := Report(id, "", "failure");
      var next := Then(h, FileComplete(r, report, 0));
      assert RequestAt(c, next, r) == WithReport(q, report, 0);
      ReportSettles(q, report, 0);
      later := NeverStuck(c, next, r);
      ContinuesFurther(h, next, later);
    }
  }

  // ---------------------------------------------------------------- one result for every file

  /** The request has exactly one result for every file of the dataset. */
  predicate Covers(ds: Dataset, r: Request) {
    |r.results| == |ds.files| && r.ReportedIds() == FileIds(ds.files)
  }

  /** Some batch of files was posted to the request's dataset after the request had ended. */
  predicate Missed(c: Config, h: History, r: nat) {
    && h.Then?
    && (Missed(c, h.past, r)
        || (var s := State(c, h.past);
            && h.action.AddFiles? && h.action.posted != []
            && r < |s.requests| && s.requests[r].datasetId == h.action.datasetId
            && s.requests[r].status.IsComplete()))
  }

  predicate PostsTo(a: Action, d: nat) {
    a.AddFiles? && a.datasetId == d && a.posted != []
  }

  lemma StepKeepsDelivered(c: Config, s: Sys, a: Action, r: nat)
    requires Inv(s) && Enabled(s, a) && r < |s.requests|
    requires var d := s.requests[r].datasetId;
      && (s.requests[r].sent != [] ==> Delivered(s.datasets[d], s.requests[r]))
      && !(PostsTo(a, d) && s.requests[r].status.IsComplete())
    ensures var s', d := Step(c, s, a), s.requests[r].datasetId;
      && r < |s'.requests| && d < |s'.datasets| && s'.requests[r].datasetId == d
      && (s'.requests[r].sent != [] ==> Delivered(s'.datasets[d], s'.requests[r]))
  {
    var d := s.requests[r].datasetId;
    StepFrame(c, s, a, r);
    StepAdvancesDatasets(c, s, a, d);
    assert RequestOk(s.datasets[d], s.requests[r]);
    if a.AddFiles? && a.datasetId == d {
      var batch := NewFiles(s.nextFile, JoinedPaths(a.posted));
      TasksOfConcat(s.datasets[d].files, batch);
    } else if a.FilesetComplete? && a.datasetId == d {
      assert [] + TasksOf(s.datasets[d].files) == TasksOf(s.datasets[d].files);
    }
  }

  lemma {:induction false} DeliveredUnlessMissed(c: Config, h: History, r: nat)
    requires Lawful(c, h) && HasRequest(c, h, r)
    ensures Missed(c, h, r) ==>
      RequestAt(c, h, r).status.IsComplete() && |RequestAt(c, h, r).sent| < |DatasetAt(c, h, r).files|
    ensures !Missed(c, h, r) && RequestAt(c, h, r).sent != [] ==>
      Delivered(DatasetAt(c, h, r), RequestAt(c, h, r))
  {
    var s, a := State(c, h.past), h.action;
    ReachableInv(c, h.past);
    if r >= |s.requests| {
      MissedHasRequest(c, h.past, r);
      FirstStateDelivered(c, s, a, r);
    } else {
      DeliveredUnlessMissed(c, h.past, r);
      if Missed(c, h, r) {
        StepAdvancesDatasets(c, s, a, s.requests[r].datasetId);
        assert SentPrefix(s.datasets[s.requests[r].datasetId], s.requests[r]);
        StepKeepsEnded(c, s, a, r);
      } else {
        StepKeepsDelivered(c, s, a, r);
      }
    }
  }

  lemma FirstStateDelivered(c: Config, s: Sys, a: Action, r: nat)
    requires Inv(s) && Enabled(s, a) && |s.requests| <= r < |Step(c, s, a).requests|
    ensures var s' := Step(c, s, a);
      && s'.requests[r].datasetId < |s'.datasets|
      && (s'.requests[r].sent != [] ==> Delivered(s'.datasets[s'.requests[r].datasetId], s'.requests[r]))
  {
    StepKeepsInv(c, s, a);
    match ResolveDataset(c, s, a.did, a.fileList)
    case Some((s1, d)) =>
      assert Step(c, s, a).requests[r] == RequestOn(s1.datasets[d], d);
  }

  lemma DeliveredIds(ds: Dataset, r: Request)
    requires Delivered(ds, r)
    ensures r.SentIds() == FileIds(ds.files)
  {
    forall x | x in FileIds(ds.files) ensures x in r.SentIds() {
      var i :| 0 <= i < |ds.files| && ds.files[i].id == x;
      assert r.sent[i] in r.sent;
    }
    forall x | x in r.SentIds() ensures x in FileIds(ds.files) {
      var i :| 0 <= i < |r.sent| && r.sent[i].fileId == x;
      assert ds.files[i] in ds.files;
    }
  }

  /** A request that was finished by its reports has exactly one result for every file of its
      dataset, if and only if no batch was posted after it had ended. */
  lemma FinishedCoversUnlessMissed(c: Config, h: History, r: nat)
    requires Lawful(c, h) && HasRequest(c, h, r)
    requires RequestAt(c, h, r).status.Complete? && RequestAt(c, h, r).finishTime.Some?
    ensures Covers(DatasetAt(c, h, r), RequestAt(c, h, r)) <==> !Missed(c, h, r)
  {
    ReachableInv(c, h);
    var ds, q := DatasetAt(c, h, r), RequestAt(c, h, r);
    DeliveredUnlessMissed(c, h, r);
    if !Missed(c, h, r) {
      DeliveredIds(ds, q);
      SentCardinality(ds, q);
      ReportedCardinality(q);
      SubsetCardinality(q.ReportedIds(), q.SentIds());
    }
  }

  /** Number of non-empty batches that were posted to dataset `d`. */
  function Batches(h: History, d: nat): nat {
    match h
    case Start => 0
    case Then(past, a) => Batches(past, d) + if PostsTo(a, d) then 1 else 0
  }

  lemma StepWithoutBatch(c: Config, s: Sys, a: Action, d: nat)
    requires Inv(s) && Enabled(s, a) && d < |Step(c, s, a).datasets| && !PostsTo(a, d)
    requires Step(c, s, a).datasets[d].status.Looking?
    requires d < |s.datasets| && s.datasets[d].status.Looking? ==> s.datasets[d].files == []
    ensures Step(c, s, a).datasets[d].files == []
  {
    if d < |s.datasets| {
      StepAdvancesDatasets(c, s, a, d);
      assert DatasetOk(s.datasets[d], s.nextFile);
    } else {
      SubmitFrame(c, s, a.did, a.fileList, a.ready);
    }
  }

  lemma {:induction false} NoBatchNoFiles(c: Config, h: History, d: nat)
    requires Lawful(c, h) && d < |State(c, h).datasets|
    requires State(c, h).datasets[d].status.Looking? && Batches(h, d) == 0
    ensures State(c, h).datasets[d].files == []
  {
    var s := State(c, h.past);
    ReachableInv(c, h.past);
    if d < |s.datasets| && s.datasets[d].status.Looking? {
      NoBatchNoFiles(c, h.past, d);
    }
    StepWithoutBatch(c, s, h.action, d);
  }

  lemma {:induction false} MissedFirstBatch(c: Config, h: History, r: nat)
    requires Lawful(c, h) && HasRequest(c, h, r) && Missed(c, h, r)
    requires Batches(h, RequestAt(c, h, r).datasetId) <= 1
    ensures RequestAt(c, h, r).status.IsComplete() && RequestAt(c, h, r).sent == []
  {
    var s := State(c, h.past);
    ReachableInv(c, h.past);
    MissedHasRequest(c, h.past, r);
    StepFrame(c, s, h.action, r);
    if Missed(c, h.past, r) {
      MissedFirstBatch(c, h.past, r);
    } else {
      NoBatchNoFiles(c, h.past, h.action.datasetId);
      assert SentPrefix(s.datasets[h.action.datasetId], s.requests[r]);
    }
    StepKeepsEnded(c, s, h.action, r);
  }

  lemma {:induction false} MissedHasRequest(c: Config, h: History, r: nat)
    requires Lawful(c, h)
    ensures Missed(c, h, r) ==> HasRequest(c, h, r)
  {
    if h.Then? {
      MissedHasRequest(c, h.past, r);
      ReachableInv(c, h.past);
      if r < |State(c, h.past).requests| {
        StepFrame(c, State(c, h.past), h.action, r);
      }
    }
  }

  /** A finder that posts its files in one batch never has a finished request miss one. */
  lemma OneBatchIsCovered(c: Config, h: History, r: nat)
    requires Lawful(c, h) && HasRequest(c, h, r)
    requires Batches(h, RequestAt(c, h, r).datasetId) <= 1
    requires RequestAt(c, h, r).status.Complete? && RequestAt(c, h, r).finishTime.Some?
    ensures Covers(DatasetAt(c, h, r), RequestAt(c, h, r))
  {
    ReachableInv(c, h);
    if Missed(c, h, r) {
      MissedFirstBatch(c, h, r);
    }
    FinishedCoversUnlessMissed(c, h, r);
  }

  /** The run in which a finder posts two files in two batches and the first is reported before
      the second arrives. */
  function TwoBatchRun(did: string, first: string, second: string): History {
    Then(Then(Then(Then(Then(Start,
      Submit(did, [], true)),
      AddFiles(0, [[first]])),
      FileComplete(0, Report(1, first, "success"), 0)),
      AddFiles(0, [[second]])),
      FilesetComplete(0, 2))
  }

  lemma FirstSubmission(c: Config, did: string)
    requires did != "" && Parse(c.word, did, c.defaultScheme).scheme in c.validSchemes - {"user"}
    ensures var ds := DatasetAfterSubmit(c, DidDataset(Parse(c.word, did, c.defaultScheme)));
      Step(c, Boot, Submit(did, [], true)) == Sys([ds], [NewRequest(0).(status := Lookup)], 1)
  {
    var ds := DidDataset(Parse(c.word, did, c.defaultScheme));
    assert Boot.datasets + [ds] == [ds];
    assert FindOrCreate(Boot, ds) == (Boot.(datasets := [ds]), 0);
  }

  lemma MissedSecondBatch(c: Config, s: Sys, first: string, second: string)
    requires |s.datasets| == 1 && s.datasets[0].files == [] && s.datasets[0].status.Looking?
    requires s.requests == [NewRequest(0).(status := Lookup)] && s.nextFile == 1
    ensures var s2 := Step(c, s, AddFiles(0, [[first]]));
      var s3 := Step(c, s2, FileComplete(0, Report(1, first, "success"), 0));
      var s4 := Step(c, s3, AddFiles(0, [[second]]));
      && Enabled(s2, FileComplete(0, Report(1, first, "success"), 0))
      && |s3.datasets| == |s4.datasets| == |s3.requests| == |s4.requests| == 1
      && s3.datasets[0].status.Looking? && s4.datasets[0].status.Looking? && |s4.datasets[0].files| == 2
      && s4.requests[0] == s3.requests[0] && s4.requests[0].status.Complete?
      && s4.requests[0].finishTime.Some? && |s4.requests[0].results| == 1 && s4.requests[0].datasetId == 0
  {
    var s2 := Step(c, s, AddFiles(0, [[first]]));
    var q := s2.requests[0];
    assert q == NewRequest(0).(status := Lookup).Extended(NewFiles(1, JoinedPaths([[first]])));
    assert q.sent == [TaskFor(DatasetFile(1, first))];
    assert q.sent[0] in q.sent;
  }

  /** That run is lawful and ends with a request that is complete with one result for two files,
      so the assumption of one batch is needed. */
  lemma TwoBatchesCanMiss(c: Config, did: string, first: string, second: string)
    requires did != "" && Parse(c.word, did, c.defaultScheme).scheme in c.validSchemes - {"user"}
    ensures var h := TwoBatchRun(did, first, second);
      && Lawful(c, h) && HasRequest(c, h, 0)
      && RequestAt(c, h, 0).status.Complete? && RequestAt(c, h, 0).finishTime.Some?
      && |RequestAt(c, h, 0).results| == 1 && |DatasetAt(c, h, 0).files| == 2
      && !Covers(DatasetAt(c, h, 0), RequestAt(c, h, 0))
  {
    var h := TwoBatchRun(did, first, second);
    var h4 := h.past;
    var h3 := h4.past;
    var h2 := h3.past;
    var h1 := h2.past;
    FirstSubmission(c, did);
    assert State(c, h1.past) == Boot;
    var s1 := State(c, h1);
    MissedSecondBatch(c, s1, first, second);
    assert Lawful(c, h1) && Lawful(c, h2) && Lawful(c, h3) && Lawful(c, h4);
    var s4 := State(c, h4);
    assert Step(c, s4, h.action).requests[0] == s4.requests[0];
  }
}
