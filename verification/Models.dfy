/** The rows of the application's database (models.py), each with what the application has sent
    to the outside on its behalf: the lookup tasks of a dataset, the transform tasks and the
    transformer shutdowns of a request. */
module Models {
  import opened Text

  datatype DatasetStatus = Created | Looking | Complete

  datatype TransformStatus = Submitted | PendingLookup | Lookup | Running | Complete | Fatal | Canceled {
    predicate IsComplete() { Complete? || Fatal? || Canceled? }
  }

  /** `paths` holds the replicas, joined by commas. */
  datatype DatasetFile = DatasetFile(id: nat, paths: string)

  datatype LookupTask = LookupTask(taskName: string, did: string)

  datatype Dataset = Dataset(
    name: string,
    didFinder: string,
    status: DatasetStatus,
    files: seq<DatasetFile>,
    nFiles: int,
    lookupTasks: seq<LookupTask>)

  /** One message on the queue of a request: a file to transform, with its replicas. */
  datatype Task = Task(fileId: nat, paths: seq<string>)

  function TaskFor(file: DatasetFile): Task {
    Task(file.id, Split(file.paths, ','))
  }

  function TasksOf(files: seq<DatasetFile>): (tasks: seq<Task>)
    ensures |tasks| == |files|
  {
    seq(|files|, i requires 0 <= i < |files| => TaskFor(files[i]))
  }

  /** What a transformer reports about one file; saved, it is a row of results. */
  datatype Report = Report(fileId: nat, filePath: string, status: string) {
    predicate IsSuccess() { status == "success" }
  }

  function Successes(results: seq<Report>): nat {
    if results == [] then 0
    else Successes(results[..|results| - 1]) + if results[|results| - 1].IsSuccess() then 1 else 0
  }

  datatype Request = Request(
    datasetId: nat,
    status: TransformStatus,
    files: nat,
    filesCompleted: nat,
    filesFailed: nat,
    finishTime: Option<int>,
    sent: seq<Task>,
    results: seq<Report>,
    shutdowns: nat)
  {
    function FilesRemaining(): Option<int> {
      if files != 0 then Some(files - filesCompleted - filesFailed) else None
    }

    /** The counter update that the database makes for one report. */
    function Counted(report: Report): Request {
      if report.IsSuccess() then this.(filesCompleted := filesCompleted + 1)
      else this.(filesFailed := filesFailed + 1)
    }

    function Saved(report: Report): Request {
      this.(results := results + [report])
    }

    function Finished(now: int): Request {
      this.(status := TransformStatus.Complete, finishTime := Some(now), shutdowns := shutdowns + 1)
    }

    /** The whole file list goes to the queue and sets the number of files. */
    function Published(all: seq<DatasetFile>): Request {
      this.(files := |all|, sent := sent + TasksOf(all))
    }

    /** A further batch goes to the queue and adds to the number of files. */
    function Extended(batch: seq<DatasetFile>): Request {
      this.(files := files + |batch|, sent := sent + TasksOf(batch))
    }

    function SentIds(): set<nat> { set t | t in sent :: t.fileId }

    function ReportedIds(): set<nat> { set r | r in results :: r.fileId }

    /** The sent files that no report has come in for. */
    function Outstanding(): set<nat> { SentIds() - ReportedIds() }
  }

  function NewRequest(datasetId: nat): Request {
    Request(datasetId, Submitted, 0, 0, 0, None, [], [], 0)
  }

  function FileIds(files: seq<DatasetFile>): set<nat> { set f | f in files :: f.id }
}
