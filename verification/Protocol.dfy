/** The life of requests and datasets as a transition system. A step is one HTTP handler of the
    application, taken as a whole: submit.py, add_file_to_dataset.py, fileset_complete.py,
    transformer_file_complete.py and cancel.py. */
module Protocol {
  import opened Text
  import opened DidParser
  import opened Models

  datatype Config = Config(
    word: CharClass,
    defaultScheme: string,
    validSchemes: set<string>,
    digest: string -> string)

  /** Identifiers of datasets and requests are positions in the tables. */
  datatype Sys = Sys(datasets: seq<Dataset>, requests: seq<Request>, nextFile: nat)

  const Boot := Sys([], [], 1)

  datatype Response = Ok | Rejected | NotFound | ServerError | ClusterError

  /** What the cluster answers when asked to shut a transformer job down. */
  datatype Shutdown = Stopped | Missing | Refused

  datatype Action =
    | Submit(did: string, fileList: seq<string>, ready: bool)
    | AddFiles(datasetId: nat, posted: seq<seq<string>>)
    | FilesetComplete(datasetId: nat, count: int)
    | FileComplete(requestId: nat, report: Report, now: int)
    | Cancel(requestId: nat, cluster: Shutdown, now: int)

  // ---------------------------------------------------------------- submit

  function FindByName(datasets: seq<Dataset>, name: string): (r: Option<nat>)
    ensures r.Some? ==> r.value < |datasets| && datasets[r.value].name == name
    ensures r.None? <==> forall i :: 0 <= i < |datasets| ==> datasets[i].name != name
  {
    if datasets == [] then None
    else if datasets[0].name == name then Some(0)
    else
      match FindByName(datasets[1..], name)
      case Some(i) => Some(i + 1)
      case None =>
        assert forall i :: 1 <= i < |datasets| ==> datasets[i] == datasets[1..][i - 1];
        None
  }

  /** What is found is the first match. */
  lemma {:induction false} FirstMatch(datasets: seq<Dataset>, name: string, k: nat)
    requires k < |datasets| && datasets[k].name == name
    requires forall i :: 0 <= i < k ==> datasets[i].name != name
    ensures FindByName(datasets, name) == Some(k)
  {
    if k > 0 {
      FirstMatch(datasets[1..], name, k - 1);
    }
  }

  function FindOrCreate(s: Sys, candidate: Dataset): (r: (Sys, nat))
    ensures r.1 < |r.0.datasets|
  {
    match FindByName(s.datasets, candidate.name)
    case Some(d) => (s, d)
    case None =>
      (s.(datasets := s.datasets + [candidate], nextFile := s.nextFile + |candidate.files|), |s.datasets|)
  }

  function NewFiles(first: nat, paths: seq<string>): (files: seq<DatasetFile>)
    ensures |files| == |paths|
  {
    seq(|paths|, i requires 0 <= i < |paths| => DatasetFile(first + i, paths[i]))
  }

  function DidDataset(d: Did): Dataset {
    Dataset(d.FullDid(), d.scheme, DatasetStatus.Created, [], 0, [])
  }

  function FileListDataset(c: Config, s: Sys, fileList: seq<string>): Dataset {
    Dataset(c.digest(Join(fileList, ' ')), "user", DatasetStatus.Complete, NewFiles(s.nextFile, fileList), 0, [])
  }

  /** The dataset that a submission names: exactly one of a DID of a supported scheme and a
      non-empty file list has to be given. */
  function ResolveDataset(c: Config, s: Sys, did: string, fileList: seq<string>): (r: Option<(Sys, nat)>)
    ensures r.Some? ==> r.value.1 < |r.value.0.datasets|
  {
    if (did != "") == (fileList != []) then None
    else if did != "" then
      var d := Parse(c.word, did, c.defaultScheme);
      if d.scheme in c.validSchemes then Some(FindOrCreate(s, DidDataset(d))) else None
    else Some(FindOrCreate(s, FileListDataset(c, s, fileList)))
  }

  /** The new request row, by the state of its dataset. */
  function RequestOn(ds: Dataset, d: nat): Request {
    match ds.status
    case Created =>
      if ds.didFinder == "user" then NewRequest(d) else NewRequest(d).(status := Lookup)
    case Looking => NewRequest(d).(status := PendingLookup)
    case Complete => NewRequest(d).Published(ds.files).(status := Running)
  }

  /** A newly created dataset has its lookup started; the task names the finder and DID that its stored
      name parses to. */
  function DatasetAfterSubmit(c: Config, ds: Dataset): Dataset {
    if ds.status.Created? && ds.didFinder != "user" then
      var d := Parse(c.word, ds.name, "rucio");
      ds.(status := DatasetStatus.Looking,
          lookupTasks := ds.lookupTasks + [LookupTask(d.LookupTaskName(), d.did)])
    else ds
  }

  function SubmitStep(c: Config, s: Sys, did: string, fileList: seq<string>, ready: bool): (Sys, Response) {
    match ResolveDataset(c, s, did, fileList)
    case None => (s, Rejected)
    case Some((s1, d)) =>
      if !ready then (s1, ServerError)
      else
        var ds := s1.datasets[d];
        var s2 := s1.(datasets := s1.datasets[d := DatasetAfterSubmit(c, ds)],
                      requests := s1.requests + [RequestOn(ds, d)]);
        (s2, if ds.status.Created? && ds.didFinder == "user" then ServerError else Ok)
  }

  // ---------------------------------------------------------------- files and file sets

  function JoinedPaths(posted: seq<seq<string>>): seq<string> {
    seq(|posted|, i requires 0 <= i < |posted| => Join(posted[i], ','))
  }

  function WithBatch(r: Request, d: nat, batch: seq<DatasetFile>): Request {
    if r.status.Lookup? && r.datasetId == d then r.Extended(batch) else r
  }

  function AddFilesStep(s: Sys, d: nat, posted: seq<seq<string>>): (Sys, Response) {
    if d >= |s.datasets| then (s, ServerError)
    else
      var ds := s.datasets[d];
      var batch := NewFiles(s.nextFile, JoinedPaths(posted));
      (Sys(s.datasets[d := ds.(files := ds.files + batch)],
           seq(|s.requests|, i requires 0 <= i < |s.requests| => WithBatch(s.requests[i], d, batch)),
           s.nextFile + |batch|), Ok)
  }

  /** A request when the file set of dataset `d` is declared complete with `count` files. */
  function Woken(r: Request, d: nat, files: seq<DatasetFile>, count: int): Request {
    if r.datasetId != d then r
    else if count > 0 then
      match r.status
      case PendingLookup => r.Published(files).(status := Running)
      case Lookup => r.(status := Running)
      case _ => r
    else
      match r.status
      case Lookup => r.(status := TransformStatus.Complete, shutdowns := r.shutdowns + 1)
      case PendingLookup => r.(status := TransformStatus.Complete)
      case _ => r
  }

  function FilesetCompleteStep(s: Sys, d: nat, count: int): (Sys, Response) {
    if d >= |s.datasets| then (s, ServerError)
    else
      var ds := s.datasets[d];
      (s.(datasets := s.datasets[d := ds.(status := DatasetStatus.Complete, nFiles := count)],
          requests := seq(|s.requests|, i requires 0 <= i < |s.requests| =>
                            Woken(s.requests[i], d, ds.files, count))), Ok)
  }

  // ---------------------------------------------------------------- reports and cancellation

  function Judged(r: Request, now: int): Request {
    if r.FilesRemaining() == Some(0) then r.Finished(now) else r
  }

  function WithReport(r: Request, report: Report, now: int): Request {
    Judged(r.Counted(report).Saved(report), now)
  }

  function FileCompleteStep(s: Sys, r: nat, report: Report, now: int): (Sys, Response) {
    if r >= |s.requests| then (s, NotFound)
    else (s.(requests := s.requests[r := WithReport(s.requests[r], report, now)]), Ok)
  }

  function CancelStep(s: Sys, r: nat, cluster: Shutdown, now: int): (Sys, Response) {
    if r >= |s.requests| then (s, NotFound)
    else
      var row := s.requests[r];
      if row.status.IsComplete() then (s, Rejected)
      else if row.status.Running? && cluster.Refused? then (s, ClusterError)
      else
        var stops := if row.status.Running? && cluster.Stopped? then 1 else 0;
        var row' := row.(status := Canceled, finishTime := Some(now), shutdowns := row.shutdowns + stops);
        (s.(requests := s.requests[r := row']), Ok)
  }

  // ---------------------------------------------------------------- runs

  function Step(c: Config, s: Sys, a: Action): Sys {
    match a
    case Submit(did, fileList, ready) => SubmitStep(c, s, did, fileList, ready).0
    case AddFiles(d, posted) => AddFilesStep(s, d, posted).0
    case FilesetComplete(d, count) => FilesetCompleteStep(s, d, count).0
    case FileComplete(r, report, now) => FileCompleteStep(s, r, report, now).0
    case Cancel(r, cluster, now) => CancelStep(s, r, cluster, now).0
  }

  /** What is assumed of the services around the application: a finder adds files only while its
      dataset is looked up and closes only a dataset whose lookup was started (closing it again
      is allowed), and a transformer reports files that it was sent, each at most once. */
  predicate Enabled(s: Sys, a: Action) {
    match a
    case AddFiles(d, _) => d < |s.datasets| ==> s.datasets[d].status.Looking?
    case FilesetComplete(d, _) => d < |s.datasets| ==> !s.datasets[d].status.Created?
    case FileComplete(r, report, _) => r < |s.requests| ==> report.fileId in s.requests[r].Outstanding()
    case _ => true
  }

  datatype History = Start | Then(past: History, action: Action)

  function State(c: Config, h: History): Sys {
    match h
    case Start => Boot
    case Then(past, a) => Step(c, State(c, past), a)
  }

  predicate Lawful(c: Config, h: History) {
    h.Then? ==> Lawful(c, h.past) && Enabled(State(c, h.past), h.action)
  }

  /** `later` is a continuation of `h`. */
  predicate Continues(h: History, later: History) {
    h == later || (later.Then? && Continues(h, later.past))
  }
}
