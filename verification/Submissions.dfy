/** What the handlers answer and change, in terms of the text that is submitted and of the rows before and
    after, and what becomes of every submission that is accepted. */
module Submissions {
  import opened Text
  import opened DidParser
  import opened Models
  import opened Protocol
  import opened ProtocolInvariant
  import opened ProtocolTheorems

  // ---------------------------------------------------------------- answers

  /** A submission is rejected, and changes nothing, exactly when it gives both or neither of a DID and a
      file list, or a DID whose scheme is not supported: the one that it spells or else the default. */
  lemma RejectedByText(c: Config, s: Sys, did: string, fileList: seq<string>, ready: bool)
    requires !c.word(':')
    ensures var (s', response) := SubmitStep(c, s, did, fileList, ready);
      && (did == "" ==> (response.Rejected? <==> fileList == []))
      && (did != "" && fileList != [] ==> response.Rejected?)
      && (did != "" && fileList == [] ==>
            && (forall a, b :: Spelled(c.word, did, a, b) ==> (response.Rejected? <==> a !in c.validSchemes))
            && ((forall a, b :: !Spelled(c.word, did, a, b)) ==>
                  (response.Rejected? <==> c.defaultScheme !in c.validSchemes)))
      && (response.Rejected? ==> s' == s)
  {
    ParseByText(c.word, did, c.defaultScheme);
  }

  /** A submission that is not rejected and cannot be carried through leaves no request. */
  lemma UnreadyLeavesNoRequest(c: Config, s: Sys, did: string, fileList: seq<string>)
    ensures var (s', response) := SubmitStep(c, s, did, fileList, false);
      (response.Rejected? || response.ServerError?) && s'.requests == s.requests
  {
  }

  /** Adding to or closing an unknown dataset is an error, a report or a cancellation for an unknown
      request finds nothing; either way nothing changes. */
  lemma UnknownChangesNothing(s: Sys, id: nat, posted: seq<seq<string>>, count: int, report: Report, cluster: Shutdown,
                              now: int)
    ensures id >= |s.datasets| ==> AddFilesStep(s, id, posted) == (s, ServerError)
    ensures id >= |s.datasets| ==> FilesetCompleteStep(s, id, count) == (s, ServerError)
    ensures id >= |s.requests| ==> FileCompleteStep(s, id, report, now) == (s, NotFound)
    ensures id >= |s.requests| ==> CancelStep(s, id, cluster, now) == (s, NotFound)
  {
  }

  /** A request that is complete, canceled or failed for good cannot be cancelled. */
  lemma EndedIsNotCancelled(s: Sys, r: nat, cluster: Shutdown, now: int)
    requires r < |s.requests|
    ensures CancelStep(s, r, cluster, now).1.Rejected?
       <==> s.requests[r].status in {TransformStatus.Complete, Canceled, Fatal}
    ensures CancelStep(s, r, cluster, now).1.Rejected? ==> CancelStep(s, r, cluster, now).0 == s
  {
  }

  // ---------------------------------------------------------------- accepted submissions

  /** A submission that is accepted adds one request and changes no other. It runs, with the files of its
      dataset, if these are known, and else waits for them, in lookup if it is the one that starts
      the lookup. */
  lemma AcceptedIsServed(c: Config, h: History, did: string, fileList: seq<string>, ready: bool)
    requires Lawful(c, h) && SubmitStep(c, State(c, h), did, fileList, ready).1.Ok?
    ensures var s, s' := State(c, h), State(c, Then(h, Submit(did, fileList, ready)));
      && |s'.requests| == |s.requests| + 1 && s.requests <= s'.requests
      && var q := s'.requests[|s.requests|];
         && q.datasetId < |s'.datasets| && q.results == []
         && (did != "" ==> s'.datasets[q.datasetId].name == Parse(c.word, did, c.defaultScheme).FullDid())
         && match s'.datasets[q.datasetId].status
            case Created => false
            case Complete => q.status.Running? && q.sent == TasksOf(s'.datasets[q.datasetId].files)
            case Looking =>
              if q.datasetId < |s.datasets| && s.datasets[q.datasetId].status.Looking?
              then q.status.PendingLookup? else q.status.Lookup?
  {
    var s := State(c, h);
    var (s1, d) := ResolveDataset(c, s, did, fileList).value;
    ResolvedIsFrame(c, s, did, fileList);
    ServedShape(c, s, did, fileList, ready);
    ServedRow(c, s1.datasets[d], d);
  }

  lemma ServedShape(c: Config, s: Sys, did: string, fileList: seq<string>, ready: bool)
    requires SubmitStep(c, s, did, fileList, ready).1.Ok?
    ensures var (s1, d), s' := ResolveDataset(c, s, did, fileList).value, SubmitStep(c, s, did, fileList, ready).0;
      && |s'.datasets| == |s1.datasets| && s'.datasets[d] == DatasetAfterSubmit(c, s1.datasets[d])
      && s'.requests == s1.requests + [RequestOn(s1.datasets[d], d)]
      && !(s1.datasets[d].status.Created? && s1.datasets[d].didFinder == "user")
  {
  }

  lemma ServedRow(c: Config, ds: Dataset, d: nat)
    requires !(ds.status.Created? && ds.didFinder == "user")
    ensures var q, ds' := RequestOn(ds, d), DatasetAfterSubmit(c, ds);
      && q.datasetId == d && q.results == [] && ds'.name == ds.name
      && match ds'.status
         case Created => false
         case Complete => q.status.Running? && q.sent == TasksOf(ds'.files)
         case Looking => if ds.status.Looking? then q.status.PendingLookup? else q.status.Lookup?
  {
    assert [] + TasksOf(ds.files) == TasksOf(ds.files);
  }

  /** Finding or creating a dataset changes no dataset that was there. */
  lemma ResolvedIsFrame(c: Config, s: Sys, did: string, fileList: seq<string>)
    requires ResolveDataset(c, s, did, fileList).Some?
    ensures var (s1, d) := ResolveDataset(c, s, did, fileList).value;
      && s.datasets <= s1.datasets && s1.requests == s.requests
      && (d >= |s.datasets| ==> !s1.datasets[d].status.Looking?)
      && (did != "" ==> s1.datasets[d].name == Parse(c.word, did, c.defaultScheme).FullDid())
  {
  }

  /** A request is left as submitted only if its dataset has no finder, which is answered with an error. */
  lemma SubmittedOnlyWithoutFinder(c: Config, h: History, r: nat)
    requires Lawful(c, h) && HasRequest(c, h, r) && RequestAt(c, h, r).status.Submitted?
    ensures DatasetAt(c, h, r).didFinder == "user" && DatasetAt(c, h, r).status.Created?
  {
    ReachableInv(c, h);
  }

  lemma {:induction false} RequestStays(c: Config, h: History, later: History, r: nat)
    requires Lawful(c, later) && Continues(h, later) && HasRequest(c, h, r)
    ensures HasRequest(c, later, r) && RequestAt(c, later, r).datasetId == RequestAt(c, h, r).datasetId
    ensures RequestAt(c, h, r).status.IsComplete() ==> RequestAt(c, later, r).status.IsComplete()
  {
    if h != later {
      RequestStays(c, h, later.past, r);
      StepFrame(c, State(c, later.past), later.action, r);
    }
  }

  lemma {:induction false} PastIsLawful(c: Config, h: History, later: History)
    requires Lawful(c, later) && Continues(h, later)
    ensures Lawful(c, h)
  {
    if h != later {
      PastIsLawful(c, h, later.past);
    }
  }

  /** Once the file set of its dataset is closed, every request runs or has ended, in every continuation; if
      there were files and it had not ended, it was sent exactly those of the dataset. */
  lemma ClosingServes(c: Config, h: History, d: nat, count: int, later: History, r: nat)
    requires Lawful(c, later) && Continues(Then(h, FilesetComplete(d, count)), later)
    requires HasRequest(c, h, r) && RequestAt(c, h, r).datasetId == d
    ensures HasRequest(c, later, r) && RequestAt(c, later, r).datasetId == d < |State(c, later).datasets|
    ensures RequestAt(c, later, r).status.Running? || RequestAt(c, later, r).status.IsComplete()
    ensures !RequestAt(c, h, r).status.IsComplete() && count > 0 ==>
      RequestAt(c, later, r).sent == TasksOf(State(c, later).datasets[d].files)
  {
    var closed := Then(h, FilesetComplete(d, count));
    PastIsLawful(c, closed, later);
    ReachableInv(c, h);
    ReachableInv(c, closed);
    NoStrandedWaiter(c, h, d, count, closed);
    NoStrandedWaiter(c, h, d, count, later);
    LookupDoneForever(c, closed, later, d);
    RequestStays(c, closed, later, r);
    SentIsFinal(c, closed, later, r);
    assert RequestOk(State(c, closed).datasets[d], RequestAt(c, closed, r));
  }

  /** Every accepted submission is served: whatever happens after it, once the file set of its dataset is
      closed its request runs or has ended, and was sent the files of the dataset unless there are
      none or it had ended before. */
  lemma AcceptedIsNeverForgotten(c: Config, h: History, did: string, fileList: seq<string>, ready: bool,
                                 middle: History, d: nat, count: int, later: History)
    requires SubmitStep(c, State(c, h), did, fileList, ready).1.Ok?
    requires Continues(Then(h, Submit(did, fileList, ready)), middle)
    requires Lawful(c, later) && Continues(Then(middle, FilesetComplete(d, count)), later)
    ensures var r := |State(c, h).requests|;
      && HasRequest(c, middle, r) && HasRequest(c, later, r)
      && (RequestAt(c, middle, r).datasetId == d ==>
            && (RequestAt(c, later, r).status.Running? || RequestAt(c, later, r).status.IsComplete())
            && (count > 0 && !RequestAt(c, middle, r).status.IsComplete() ==>
                  RequestAt(c, later, r).sent == TasksOf(DatasetAt(c, later, r).files)))
  {
    var r, accepted := |State(c, h).requests|, Then(h, Submit(did, fileList, ready));
    var closed := Then(middle, FilesetComplete(d, count));
    PastIsLawful(c, closed, later);
    PastIsLawful(c, accepted, middle);
    AcceptedIsServed(c, h, did, fileList, ready);
    RequestStays(c, accepted, middle, r);
    RequestStays(c, middle, closed, r);
    RequestStays(c, closed, later, r);
    if RequestAt(c, middle, r).datasetId == d {
      ClosingServes(c, middle, d, count, later, r);
    }
  }

  // ---------------------------------------------------------------- files and file sets, row by row

  /** Posting files appends them to the dataset, numbered on, each with its replicas joined by commas. The
      request in lookup on the dataset has as many files more and keeps its status; no other row changes. */
  lemma PostingAppends(s: Sys, d: nat, posted: seq<seq<string>>)
    requires d < |s.datasets|
    ensures var (s', response) := AddFilesStep(s, d, posted);
      && response.Ok? && s'.nextFile == s.nextFile + |posted|
      && |s'.datasets| == |s.datasets| && |s'.requests| == |s.requests|
      && (forall e :: 0 <= e < |s.datasets| && e != d ==> s'.datasets[e] == s.datasets[e])
      && s.datasets[d].files <= s'.datasets[d].files
      && |s'.datasets[d].files| == |s.datasets[d].files| + |posted|
      && s'.datasets[d] == s.datasets[d].(files := s'.datasets[d].files)
      && (forall i :: 0 <= i < |posted| ==>
            s'.datasets[d].files[|s.datasets[d].files| + i] == DatasetFile(s.nextFile + i, Join(posted[i], ',')))
      && (forall r :: 0 <= r < |s.requests| ==>
            if s.requests[r].datasetId == d && s.requests[r].status.Lookup?
            then s'.requests[r] == s.requests[r].(files := s.requests[r].files + |posted|, sent := s'.requests[r].sent)
            else s'.requests[r] == s.requests[r])
  {
  }

  /** Closing a file set records the number of files and ends the lookup of the dataset, and changes no other
      dataset and no request but those that wait for this one. With files, the one in lookup runs
      with what it was sent, and one that waited runs with all files; without, both are complete. */
  lemma ClosingReleases(c: Config, h: History, d: nat, count: int)
    requires Lawful(c, h) && d < |State(c, h).datasets|
    ensures var s, (s', response) := State(c, h), FilesetCompleteStep(State(c, h), d, count);
      && response.Ok? && |s'.datasets| == |s.datasets| && |s'.requests| == |s.requests|
      && s'.nextFile == s.nextFile
      && (forall e :: 0 <= e < |s.datasets| && e != d ==> s'.datasets[e] == s.datasets[e])
      && s'.datasets[d] == s.datasets[d].(status := DatasetStatus.Complete, nFiles := count)
      && forall r :: 0 <= r < |s.requests| ==>
           ReleasedRow(s.requests[r], s'.requests[r], d, s.datasets[d].files, count)
  {
    ReachableInv(c, h);
    var s := State(c, h);
    forall r | 0 <= r < |s.requests|
      ensures ReleasedRow(s.requests[r], FilesetCompleteStep(s, d, count).0.requests[r], d, s.datasets[d].files, count)
    {
      assert RequestOk(s.datasets[s.requests[r].datasetId], s.requests[r]);
      assert [] + TasksOf(s.datasets[d].files) == TasksOf(s.datasets[d].files);
    }
  }

  predicate ReleasedRow(q: Request, q': Request, d: nat, files: seq<DatasetFile>, count: int) {
    if q.datasetId != d || !(q.status.Lookup? || q.status.PendingLookup?) then q' == q
    else
      && q'.datasetId == d && q'.results == q.results && q'.finishTime == q.finishTime
      && q'.filesCompleted == q.filesCompleted && q'.filesFailed == q.filesFailed
      && (count > 0 ==> q'.status.Running? && q'.shutdowns == q.shutdowns)
      && (count > 0 && q.status.PendingLookup? ==> q'.sent == TasksOf(files) && q'.files == |files|)
      && (q.status.Lookup? ==> q'.sent == q.sent && q'.files == q.files)
      && (count <= 0 ==> q'.status.Complete? && q'.sent == q.sent && q'.files == q.files)
      && (count <= 0 ==> q'.shutdowns == q.shutdowns + if q.status.Lookup? then 1 else 0)
  }
}
