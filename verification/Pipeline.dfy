/** From the tasks of a running request to its completion: transformers take the tasks in any split,
    uploaders drain their queues, and the reports arrive in any order. */
module Pipeline {
  import opened Bags
  import opened Models
  import opened Protocol
  import opened ProtocolInvariant
  import opened ProtocolTheorems
  import opened Replicas
  import opened Sidecar
  import opened Uploader

  /** One task in the hands of a transformer, with what the environment does meanwhile. */
  datatype Job = Job(assignment: Assignment, script: Script)

  /** A transformer with the jobs it takes, and which files its uploader could convert. */
  datatype Transformer = Transformer(settings: Settings, jobs: seq<Job>, convertible: Location -> bool)

  function TriedBy(settings: Settings, job: Job): seq<string> {
    Tried(settings.cachePrefix, settings.hash, job.assignment.task.paths)
  }

  function VerdictOf(settings: Settings, job: Job): Verdict {
    Judge(job.assignment, TriedBy(settings, job), job.script)
  }

  /** The container is gone, or exactly one report can be made and nothing raises after it in a way
      that makes another. */
  predicate Healthy(settings: Settings, job: Job) {
    var a, tried, script := job.assignment, TriedBy(settings, job), job.script;
    && !script.host.setupFails
    && (ContainerGone(tried, script)
        || if CanFail(a, tried) then !RaisesLate(a, tried, script) else Delivers(a, tried, script))
  }

  predicate AllHealthy(settings: Settings, jobs: seq<Job>) {
    forall i :: 0 <= i < |jobs| ==> Healthy(settings, jobs[i])
  }

  /** The transformer ended because its container was gone. It is assumed that the queue then gives the
      task to another transformer. */
  predicate Abandoned(settings: Settings, job: Job) {
    VerdictOf(settings, job).exit.Exited?
  }

  /** A task of the application: its file has a number and its paths name at least one replica. */
  predicate Sendable(task: Task) {
    task.fileId != 0 && task.paths != []
  }

  /** The reports that a transformer sends itself. */
  function Direct(settings: Settings, jobs: seq<Job>): seq<Report> {
    if jobs == [] then []
    else Direct(settings, jobs[..|jobs| - 1]) + ReportedBy(settings, VerdictOf(settings, jobs[|jobs| - 1]))
  }

  /** The items that a transformer leaves to its uploader. */
  function Queued(settings: Settings, jobs: seq<Job>): (items: seq<WorkItem>)
    ensures forall i :: 0 <= i < |items| ==> items[i].Item?
  {
    if jobs == [] then []
    else
      var job := jobs[|jobs| - 1];
      Queued(settings, jobs[..|jobs| - 1]) + QueuedBy(settings, job.assignment, TriedBy(settings, job), job.script)
  }

  /** The reports that its uploader sends, once the pill was put behind the items. */
  function Drained(t: Transformer): seq<Report> {
    var queue := Queued(t.settings, t.jobs) + [Pill];
    var convert := t.settings.convertRootToParquet;
    ReportsIn(Log(convert, queue[..Served(convert, t.convertible, queue)]))
  }

  function ReportsOf(t: Transformer): seq<Report> {
    Direct(t.settings, t.jobs) + Drained(t)
  }

  function AllReports(ts: seq<Transformer>): seq<Report> {
    if ts == [] then [] else AllReports(ts[..|ts| - 1]) + ReportsOf(ts[|ts| - 1])
  }

  /** The tasks that a transformer took and did not abandon. */
  function TasksDone(settings: Settings, jobs: seq<Job>): seq<Task> {
    if jobs == [] then []
    else
      var front, job := TasksDone(settings, jobs[..|jobs| - 1]), jobs[|jobs| - 1];
      if Abandoned(settings, job) then front else front + [job.assignment.task]
  }

  function AllTasks(ts: seq<Transformer>): seq<Task> {
    if ts == [] then [] else AllTasks(ts[..|ts| - 1]) + TasksDone(ts[|ts| - 1].settings, ts[|ts| - 1].jobs)
  }

  predicate Works(t: Transformer) {
    && AllHealthy(t.settings, t.jobs)
    && (t.settings.convertRootToParquet ==>
          forall item :: item in Queued(t.settings, t.jobs) ==> t.convertible(item.source))
  }

  // ---------------------------------------------------------------- one report per task

  function TaskIds(tasks: seq<Task>): seq<nat> { Map((task: Task) => task.fileId, tasks) }

  function ReportIds(reports: seq<Report>): seq<nat> { Map((report: Report) => report.fileId, reports) }

  lemma ReportIdsConcat(a: seq<Report>, b: seq<Report>)
    ensures ReportIds(a + b) == ReportIds(a) + ReportIds(b)
  {
  }

  lemma TaskIdsConcat(a: seq<Task>, b: seq<Task>)
    ensures TaskIds(a + b) == TaskIds(a) + TaskIds(b)
  {
  }

  lemma TriedIsNotEmpty(settings: Settings, job: Job)
    ensures job.assignment.task.paths != [] <==> TriedBy(settings, job) != []
  {
    TriedOrder(settings.cachePrefix, settings.hash, job.assignment.task.paths);
  }

  function IdDone(settings: Settings, job: Job): seq<nat> {
    if Abandoned(settings, job) then [] else [job.assignment.task.fileId]
  }

  lemma SuccessStops(a: Assignment, tried: seq<string>, script: Script)
    requires Judge(a, tried, script).success.Some?
    ensures script.Stop(|tried|) < |tried|
  {
  }

  /** Every record is reported at once or left to the uploader. */
  lemma RecordsAreReported(settings: Settings, a: Assignment, tried: seq<string>, script: Script)
    ensures var id, v := a.task.fileId, Judge(a, tried, script);
      var direct, items := ReportedBy(settings, v), QueuedBy(settings, a, tried, script);
      && |direct| + |items| == |v.Records()|
      && (forall i :: 0 <= i < |direct| ==> direct[i].fileId == id)
      && (forall i :: 0 <= i < |items| ==> items[i].Item? && items[i].rec.fileId == id)
  {
    RecordsPerTask(a, tried, script);
    var v := Judge(a, tried, script);
    if v.success.Some? {
      SuccessStops(a, tried, script);
      assert v.Records()[0] == v.success.value;
    }
    assert forall rec :: rec in v.failures ==> rec in v.Records();
    assert forall i :: 0 <= i < |v.failures| ==> v.failures[i] in v.failures;
  }

  lemma SameIds(direct: seq<Report>, items: seq<WorkItem>, id: nat)
    requires forall i :: 0 <= i < |direct| ==> direct[i].fileId == id
    requires forall i :: 0 <= i < |items| ==> items[i].Item? && items[i].rec.fileId == id
    ensures var ids := ReportIds(direct) + ReportIds(RecordsOf(items));
      |ids| == |direct| + |items| && forall i :: 0 <= i < |ids| ==> ids[i] == id
  {
  }

  /** A job makes one report, for its file, at once or through the uploader, or none if it was
      abandoned, exactly when it is healthy. */
  lemma JobReportsOnce(settings: Settings, job: Job)
    ensures var direct, items := ReportedBy(settings, VerdictOf(settings, job)),
                QueuedBy(settings, job.assignment, TriedBy(settings, job), job.script);
      ReportIds(direct) + ReportIds(RecordsOf(items)) == IdDone(settings, job) <==> Healthy(settings, job)
  {
    RecordsPerTask(job.assignment, TriedBy(settings, job), job.script);
    RecordsAreReported(settings, job.assignment, TriedBy(settings, job), job.script);
    SameIds(ReportedBy(settings, VerdictOf(settings, job)),
      QueuedBy(settings, job.assignment, TriedBy(settings, job), job.script), job.assignment.task.fileId);
  }

  lemma RecordsOfConcat(a: seq<WorkItem>, b: seq<WorkItem>)
    requires forall i :: 0 <= i < |a| ==> a[i].Item?
    requires forall i :: 0 <= i < |b| ==> b[i].Item?
    ensures RecordsOf(a + b) == RecordsOf(a) + RecordsOf(b)
  {
  }

  lemma MergeBags(a: seq<nat>, b: seq<nat>, c: seq<nat>, d: seq<nat>, both: seq<nat>)
    requires multiset(a) + multiset(c) == multiset(both)
    ensures multiset(a + b) + multiset(c + d) == multiset(both + (b + d))
  {
  }

  function DirectIds(settings: Settings, jobs: seq<Job>): seq<nat> {
    ReportIds(Direct(settings, jobs))
  }

  function QueuedIds(settings: Settings, jobs: seq<Job>): seq<nat> {
    ReportIds(RecordsOf(Queued(settings, jobs)))
  }

  lemma LastJob(settings: Settings, front: seq<Job>, job: Job) returns (d: seq<nat>, q: seq<nat>)
    requires Healthy(settings, job)
    ensures d + q == IdDone(settings, job)
    ensures DirectIds(settings, front + [job]) == DirectIds(settings, front) + d
    ensures QueuedIds(settings, front + [job]) == QueuedIds(settings, front) + q
  {
    var jobs := front + [job];
    var direct := ReportedBy(settings, VerdictOf(settings, job));
    var items := QueuedBy(settings, job.assignment, TriedBy(settings, job), job.script);
    assert jobs[..|jobs| - 1] == front && jobs[|jobs| - 1] == job;
    JobReportsOnce(settings, job);
    ReportIdsConcat(Direct(settings, front), direct);
    RecordsOfConcat(Queued(settings, front), items);
    ReportIdsConcat(RecordsOf(Queued(settings, front)), RecordsOf(items));
    d, q := ReportIds(direct), ReportIds(RecordsOf(items));
  }

  lemma LastTask(settings: Settings, front: seq<Job>, job: Job)
    ensures TaskIds(TasksDone(settings, front + [job])) == TaskIds(TasksDone(settings, front)) + IdDone(settings, job)
  {
    assert (front + [job])[..|front|] == front;
    TaskIdsConcat(TasksDone(settings, front), if Abandoned(settings, job) then [] else [job.assignment.task]);
  }

  /** Each task that was not abandoned has one report, made at once or left to the uploader. */
  predicate OncePerTask(settings: Settings, jobs: seq<Job>) {
    multiset(DirectIds(settings, jobs)) + multiset(QueuedIds(settings, jobs))
    == multiset(TaskIds(TasksDone(settings, jobs)))
  }

  lemma OneMoreJob(settings: Settings, front: seq<Job>, job: Job)
    requires Healthy(settings, job) && OncePerTask(settings, front)
    ensures OncePerTask(settings, front + [job])
  {
    var a, c, both := DirectIds(settings, front), QueuedIds(settings, front), TaskIds(TasksDone(settings, front));
    var d, q := LastJob(settings, front, job);
    LastTask(settings, front, job);
    assert multiset(a + d) + multiset(c + q) == multiset(both + (d + q)) by {
      MergeBags(a, d, c, q, both);
    }
  }

  lemma HealthyFront(settings: Settings, jobs: seq<Job>)
    requires AllHealthy(settings, jobs) && jobs != []
    ensures AllHealthy(settings, jobs[..|jobs| - 1]) && Healthy(settings, jobs[|jobs| - 1])
    ensures jobs == jobs[..|jobs| - 1] + [jobs[|jobs| - 1]]
  {
  }

  /** Over all its jobs, a transformer and its uploader make one report for each task that it did
      not abandon. */
  lemma {:induction false} JobsReportOnce(settings: Settings, jobs: seq<Job>)
    requires AllHealthy(settings, jobs)
    ensures OncePerTask(settings, jobs)
  {
    if jobs != [] {
      HealthyFront(settings, jobs);
      JobsReportOnce(settings, jobs[..|jobs| - 1]);
      OneMoreJob(settings, jobs[..|jobs| - 1], jobs[|jobs| - 1]);
    }
  }

  lemma TransformerReportsOnce(t: Transformer)
    requires Works(t)
    ensures multiset(ReportIds(ReportsOf(t))) == multiset(TaskIds(TasksDone(t.settings, t.jobs)))
  {
    var items := Queued(t.settings, t.jobs);
    assert forall i :: 0 <= i < |items| ==> items[i] in items;
    DrainsToPill(t.settings.convertRootToParquet, t.convertible, items, []);
    assert items + [Pill] + [] == items + [Pill];
    JobsReportOnce(t.settings, t.jobs);
    assert Drained(t) == RecordsOf(items);
    ReportIdsConcat(Direct(t.settings, t.jobs), Drained(t));
  }

  lemma {:induction false} AllReportOnce(ts: seq<Transformer>)
    requires forall i :: 0 <= i < |ts| ==> Works(ts[i])
    ensures multiset(ReportIds(AllReports(ts))) == multiset(TaskIds(AllTasks(ts)))
  {
    if ts != [] {
      var front, t := ts[..|ts| - 1], ts[|ts| - 1];
      AllReportOnce(front);
      TransformerReportsOnce(t);
      ReportIdsConcat(AllReports(front), ReportsOf(t));
      TaskIdsConcat(AllTasks(front), TasksDone(t.settings, t.jobs));
    }
  }

  // ---------------------------------------------------------------- delivery

  /** The run in which the reports come in, in the given order. */
  function Deliver(h: History, r: nat, reports: seq<Report>, now: int): History {
    if reports == [] then h
    else Then(Deliver(h, r, reports[..|reports| - 1], now), FileComplete(r, reports[|reports| - 1], now))
  }

  lemma StillOutstanding(q: Request, q': Request, front: seq<Report>, last: Report)
    requires q'.sent == q.sent && q'.results == q.results + front
    requires last.fileId in q.Outstanding() && Distinct(ReportIds(front + [last]))
    ensures last.fileId in q'.Outstanding()
  {
    var ids := ReportIds(front + [last]);
    assert forall i :: 0 <= i < |front| ==> front[i].fileId == ids[i] != ids[|front|] == last.fileId;
    assert forall report :: report in q.results ==> report.fileId in q.ReportedIds();
  }

  lemma {:induction false} DeliveryIsLawful(c: Config, h: History, r: nat, reports: seq<Report>, now: int)
    requires Lawful(c, h) && HasRequest(c, h, r)
    requires Distinct(ReportIds(reports))
    requires forall i :: 0 <= i < |reports| ==> reports[i].fileId in RequestAt(c, h, r).Outstanding()
    ensures var h' := Deliver(h, r, reports, now);
      && Lawful(c, h') && HasRequest(c, h', r)
      && RequestAt(c, h', r).sent == RequestAt(c, h, r).sent
      && RequestAt(c, h', r).results == RequestAt(c, h, r).results + reports
  {
    if reports != [] {
      var front, last := reports[..|reports| - 1], reports[|reports| - 1];
      assert reports == front + [last];
      assert ReportIds(front) == ReportIds(reports)[..|reports| - 1];
      DeliveryIsLawful(c, h, r, front, now);
      var q, q' := RequestAt(c, h, r), RequestAt(c, Deliver(h, r, front, now), r);
      StillOutstanding(q, q', front, last);
      assert q'.results + [last] == q.results + reports;
    }
  }

  lemma SentAreSendable(c: Config, h: History, r: nat)
    requires Lawful(c, h) && HasRequest(c, h, r)
    ensures forall task :: task in RequestAt(c, h, r).sent ==> Sendable(task)
    ensures Distinct(TaskIds(RequestAt(c, h, r).sent))
    ensures forall id :: id in TaskIds(RequestAt(c, h, r).sent) ==> id in RequestAt(c, h, r).SentIds()
  {
    ReachableInv(c, h);
    var q, ds := RequestAt(c, h, r), DatasetAt(c, h, r);
    assert DatasetOk(ds, State(c, h).nextFile) && SentPrefix(ds, q);
    forall id | id in TaskIds(q.sent) ensures id in q.SentIds() {
      var i :| 0 <= i < |q.sent| && q.sent[i].fileId == id;
      assert q.sent[i] in q.sent;
    }
  }

  /** The reports of working transformers are, in any order, one for each task they did. */
  lemma ReportsMatchTasks(ts: seq<Transformer>, tasks: seq<Task>, reports: seq<Report>)
    requires forall i :: 0 <= i < |ts| ==> Works(ts[i])
    requires multiset(AllTasks(ts)) == multiset(tasks)
    requires multiset(reports) == multiset(AllReports(ts))
    ensures multiset(ReportIds(reports)) == multiset(TaskIds(tasks)) && |reports| == |tasks|
  {
    AllReportOnce(ts);
    MapPermutes((task: Task) => task.fileId, AllTasks(ts), tasks);
    MapPermutes((report: Report) => report.fileId, reports, AllReports(ts));
    SameSize(TaskIds(tasks), ReportIds(reports));
  }

  /** End to end: when the tasks of a request are done by transformers in any split and order, those
      that one abandoned by another, each with an uploader that drains its queue, and all their
      reports come in, in any order, then the request is complete, with one result for each task, whatever the mix of
      successes and failures. */
  lemma TasksToCompletion(c: Config, h: History, r: nat, ts: seq<Transformer>, reports: seq<Report>, now: int)
    requires Lawful(c, h) && HasRequest(c, h, r)
    requires RequestAt(c, h, r).results == [] && RequestAt(c, h, r).sent != []
    requires forall i :: 0 <= i < |ts| ==> Works(ts[i])
    requires multiset(AllTasks(ts)) == multiset(RequestAt(c, h, r).sent)
    requires multiset(reports) == multiset(AllReports(ts))
    ensures var q, h' := RequestAt(c, h, r), Deliver(h, r, reports, now);
      && Lawful(c, h') && HasRequest(c, h', r)
      && var q' := RequestAt(c, h', r);
         && q'.status.Complete? && q'.Outstanding() == {} && q'.results == reports
         && |q'.results| == |q.sent| == q'.filesCompleted + q'.filesFailed
         && q'.filesCompleted == Successes(reports)
  {
    var q := RequestAt(c, h, r);
    SentAreSendable(c, h, r);
    ReportsMatchTasks(ts, q.sent, reports);
    DistinctPermutes(TaskIds(q.sent), ReportIds(reports));
    forall i | 0 <= i < |reports| ensures reports[i].fileId in q.Outstanding() {
      assert ReportIds(reports)[i] in multiset(ReportIds(reports));
      assert ReportIds(reports)[i] in TaskIds(q.sent);
    }
    DeliveryIsLawful(c, h, r, reports, now);
    AllReportedIsComplete(c, Deliver(h, r, reports, now), r);
  }

  /** The sent files are all reported exactly when the reported files are the sent ones. */
  lemma AllReportedIffSame(q: Request)
    requires Distinct(TaskIds(q.sent)) && Distinct(ReportIds(q.results)) && q.ReportedIds() <= q.SentIds()
    ensures q.Outstanding() == {} <==> multiset(ReportIds(q.results)) == multiset(TaskIds(q.sent))
  {
    var sent, reported := TaskIds(q.sent), ReportIds(q.results);
    IdsAreElements(q);
    if q.Outstanding() == {} {
      assert forall id :: id in q.SentIds() && id !in q.ReportedIds() ==> id in q.Outstanding();
      assert forall id :: id in q.SentIds() <==> id in q.ReportedIds();
      DistinctSameElements(reported, sent);
    } else {
      var id :| id in q.Outstanding();
      assert id in multiset(sent) && id !in multiset(reported);
    }
  }

  lemma IdsAreElements(q: Request)
    ensures forall id :: id in TaskIds(q.sent) <==> id in q.SentIds()
    ensures forall id :: id in ReportIds(q.results) <==> id in q.ReportedIds()
  {
    forall id ensures id in TaskIds(q.sent) <==> id in q.SentIds() {
      if id in q.SentIds() {
        var i :| 0 <= i < |q.sent| && q.sent[i].fileId == id;
        assert TaskIds(q.sent)[i] == id;
      }
    }
    forall id ensures id in ReportIds(q.results) <==> id in q.ReportedIds() {
      if id in q.ReportedIds() {
        var i :| 0 <= i < |q.results| && q.results[i].fileId == id;
        assert ReportIds(q.results)[i] == id;
      }
    }
  }

  lemma CompleteIffSame(c: Config, h: History, r: nat)
    requires Lawful(c, h) && HasRequest(c, h, r)
    ensures var q := RequestAt(c, h, r);
      q.Outstanding() == {} <==> multiset(ReportIds(q.results)) == multiset(TaskIds(q.sent))
  {
    ReachableInv(c, h);
    SentAreSendable(c, h, r);
    var q := RequestAt(c, h, r);
    assert ReportsOk(q);
    AllReportedIffSame(q);
  }

  /** The same for any run in which the reports of a running request came in between other steps,
      cancellation and requests of others included: it is complete exactly when its tasks were done,
      so a task that was abandoned and given to nobody else keeps it from completing. */
  lemma TasksToCompletionInterleaved(c: Config, h: History, later: History, r: nat, ts: seq<Transformer>)
    requires Lawful(c, later) && Continues(h, later)
    requires HasRequest(c, h, r) && HasRequest(c, later, r)
    requires RequestAt(c, h, r).status.Running? && RequestAt(c, h, r).sent != []
    requires Lawful(c, h) && forall i :: 0 <= i < |ts| ==> Works(ts[i])
    requires multiset(RequestAt(c, later, r).results) == multiset(AllReports(ts))
    ensures var q, sent := RequestAt(c, later, r), RequestAt(c, h, r).sent;
      && (q.status.Complete? <==> multiset(TaskIds(AllTasks(ts))) == multiset(TaskIds(sent)))
      && (q.status.Complete? <==> q.Outstanding() == {})
      && |q.results| == |AllTasks(ts)| == |sent| - |q.Outstanding()| == q.filesCompleted + q.filesFailed
  {
    var q := RequestAt(c, later, r);
    SentIsFinal(c, h, later, r);
    OnlyReportsFinish(c, h, later, r);
    AllReportedIsComplete(c, later, r);
    ReportsMatchTasks(ts, AllTasks(ts), q.results);
    CompleteIffSame(c, later, r);
  }

  /** The premises of the theorems above can be met for every request that was sent tasks: here by one
      transformer whose container garbles every request for work. */
  lemma TasksCanBeDone(c: Config, h: History, r: nat, settings: Settings) returns (t: Transformer)
    requires Lawful(c, h) && HasRequest(c, h, r) && settings.cachePrefix != "" && !settings.objectStore
    ensures Works(t) && AllTasks([t]) == RequestAt(c, h, r).sent
  {
    SentAreSendable(c, h, r);
    var tasks := RequestAt(c, h, r).sent;
    t := Transformer(settings, GarbledJobs(tasks), _ => true);
    GarbledJobsWork(settings, tasks);
    assert [t][..0] == [];
    assert AllTasks([t]) == AllTasks([]) + TasksDone(settings, t.jobs);
  }

  function GarbledJob(task: Task): Job {
    Job(Assignment("request", task, "volume", "root"), Script([Garbled], Host(false, [], false)))
  }

  function GarbledJobs(tasks: seq<Task>): seq<Job> {
    Map((task: Task) => GarbledJob(task), tasks)
  }

  lemma GarbledJobWorks(settings: Settings, task: Task)
    requires Sendable(task) && settings.cachePrefix != "" && !settings.objectStore
    ensures var job := GarbledJob(task);
      Healthy(settings, job) && !Abandoned(settings, job)
      && QueuedBy(settings, job.assignment, TriedBy(settings, job), job.script) == []
  {
    var job := GarbledJob(task);
    var tried := TriedBy(settings, job);
    TriedIsNotEmpty(settings, job);
    assert Synched([Garbled]).0.Raised?;
    assert job.script.AttemptAt(0).Broken?;
    job.script.StopFromIs(0, 0, |tried|);
    var paths := PrioritizeReplicas(task.paths);
    assert forall i :: 0 <= i < |tried| ==> tried[i] == Pinned(settings.cachePrefix, settings.hash, paths[i]);
    assert forall i :: 0 <= i < |tried| ==> |tried[i]| > 0;
  }

  predicate GarbledWork(settings: Settings, tasks: seq<Task>) {
    var jobs := GarbledJobs(tasks);
    TasksDone(settings, jobs) == tasks && Queued(settings, jobs) == [] && AllHealthy(settings, jobs)
  }

  lemma TakenJobs(settings: Settings, front: seq<Job>, job: Job)
    requires AllHealthy(settings, front) && Healthy(settings, job) && !Abandoned(settings, job)
    requires QueuedBy(settings, job.assignment, TriedBy(settings, job), job.script) == []
    ensures TasksDone(settings, front + [job]) == TasksDone(settings, front) + [job.assignment.task]
    ensures Queued(settings, front + [job]) == Queued(settings, front)
    ensures AllHealthy(settings, front + [job])
  {
    assert (front + [job])[..|front|] == front;
  }

  lemma GarbledNext(settings: Settings, front: seq<Task>, last: Task)
    requires GarbledWork(settings, front) && Sendable(last) && settings.cachePrefix != "" && !settings.objectStore
    ensures GarbledWork(settings, front + [last])
  {
    GarbledJobWorks(settings, last);
    TakenJobs(settings, GarbledJobs(front), GarbledJob(last));
    assert GarbledJobs(front + [last]) == GarbledJobs(front) + [GarbledJob(last)];
  }

  lemma SendableFront(tasks: seq<Task>)
    requires tasks != [] && forall task :: task in tasks ==> Sendable(task)
    ensures tasks == tasks[..|tasks| - 1] + [tasks[|tasks| - 1]] && Sendable(tasks[|tasks| - 1])
    ensures forall task :: task in tasks[..|tasks| - 1] ==> Sendable(task)
  {
  }

  lemma {:induction false} GarbledJobsWork(settings: Settings, tasks: seq<Task>)
    requires forall task :: task in tasks ==> Sendable(task)
    requires settings.cachePrefix != "" && !settings.objectStore
    ensures GarbledWork(settings, tasks)
  {
    if tasks != [] {
      SendableFront(tasks);
      GarbledJobsWork(settings, tasks[..|tasks| - 1]);
      GarbledNext(settings, tasks[..|tasks| - 1], tasks[|tasks| - 1]);
    }
  }
}
