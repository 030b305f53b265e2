/** File-complete handlers of one request at the same time as everything else that changes its row: batches
    of files, the closing of the file set and cancellation, each in one turn. A handler that read
    that no file remains may be overtaken by a batch before it completes the request. */
module RequestRace {
  import opened Text
  import opened Models
  import opened Protocol
  import opened ProtocolInvariant
  import opened ProtocolTheorems
  import Race = FileCompleteRace

  type Handler = Race.Handler

  datatype Event =
    | Turn(handler: nat)
    | Batch(files: seq<DatasetFile>)
    | Close(files: seq<DatasetFile>, count: int)
    | Stop(cluster: Shutdown, now: int)

  datatype Events = Quiet | After(past: Events, event: Event)

  predicate Among(es: Events, n: nat) {
    es.After? ==> Among(es.past, n) && (es.event.Turn? ==> es.event.handler < n)
  }

  function Happen(hs: seq<Handler>, s: Race.Race, e: Event): Race.Race
    requires |s.stages| == |hs| && (e.Turn? ==> e.handler < |hs|)
  {
    match e
    case Turn(h) => Race.Advance(hs, s, h)
    case Batch(files) => s.(row := WithBatch(s.row, s.row.datasetId, files))
    case Close(files, count) => s.(row := Woken(s.row, s.row.datasetId, files, count))
    case Stop(cluster, now) => s.(row := CancelStep(Sys([], [s.row], 1), 0, cluster, now).0.requests[0])
  }

  function Run(hs: seq<Handler>, row: Request, es: Events): (s: Race.Race)
    requires Among(es, |hs|)
    ensures |s.stages| == |hs|
  {
    match es
    case Quiet => Race.StartRace(row, |hs|)
    case After(past, e) => Happen(hs, Run(hs, row, past), e)
  }

  function RowAt(hs: seq<Handler>, row: Request, es: Events): Request
    requires Among(es, |hs|)
  {
    Run(hs, row, es).row
  }

  function StageAt(hs: seq<Handler>, row: Request, es: Events, h: nat): Race.Stage
    requires Among(es, |hs|) && h < |hs|
  {
    Run(hs, row, es).stages[h]
  }

  /** A report comes in for a file that was sent and not reported before. */
  predicate Permitted(s: Race.Race, e: Event) {
    e.Turn? && e.handler < |s.stages| && s.stages[e.handler].Begin? ==> Race.Left(s.row) > 0
  }

  predicate Lawful(hs: seq<Handler>, row: Request, es: Events)
    requires Among(es, |hs|)
  {
    es.After? ==> Lawful(hs, row, es.past) && Permitted(Run(hs, row, es.past), es.event)
  }

  /** The turns of other handlers do to the row what these handlers do, taken as steps. */
  lemma EventsAreSteps(c: Config, s: Sys, r: nat, hs: seq<Handler>, stages: seq<Race.Stage>, d: nat,
                       posted: seq<seq<string>>, count: int, cluster: Shutdown, now: int)
    requires r < |s.requests| && |stages| == |hs| && s.requests[r].datasetId == d < |s.datasets|
    ensures var race := Race.Race(s.requests[r], stages);
      && Happen(hs, race, Batch(NewFiles(s.nextFile, JoinedPaths(posted))))
           == Race.Race(Step(c, s, AddFiles(d, posted)).requests[r], stages)
      && Happen(hs, race, Close(s.datasets[d].files, count))
           == Race.Race(Step(c, s, FilesetComplete(d, count)).requests[r], stages)
      && Happen(hs, race, Stop(cluster, now)) == Race.Race(Step(c, s, Cancel(r, cluster, now)).requests[r], stages)
  {
  }

  // ---------------------------------------------------------------- since a handler read

  /** The handler read that no file remains, and completes the request or has done so. */
  predicate SawNone(stage: Race.Stage) {
    (stage.Judged? || stage.Done?) && stage.last
  }

  /** The number of files that an event gives to the request. */
  function Given(row: Request, e: Event): nat {
    match e
    case Batch(files) => if row.status.Lookup? then |files| else 0
    case Close(files, count) => if row.status.PendingLookup? && count > 0 then |files| else 0
    case _ => 0
  }

  /** The number of files given to the request since handler `h` read. */
  function GivenSince(hs: seq<Handler>, row: Request, es: Events, h: nat): nat
    requires Among(es, |hs|) && h < |hs|
  {
    if es.Quiet? || StageAt(hs, row, es.past, h).Rank() < 3 then 0
    else GivenSince(hs, row, es.past, h) + Given(RowAt(hs, row, es.past), es.event)
  }

  /** The number of reports counted since handler `h` read. */
  function CountedSince(hs: seq<Handler>, row: Request, es: Events, h: nat): nat
    requires Among(es, |hs|) && h < |hs|
  {
    if es.Quiet? || StageAt(hs, row, es.past, h).Rank() < 3 then 0
    else
      CountedSince(hs, row, es.past, h)
      + if es.event.Turn? && StageAt(hs, row, es.past, es.event.handler).Begin? then 1 else 0
  }

  // ---------------------------------------------------------------- what every event keeps

  /** A row that its reports have not finished, and that was given no files while it waits for another's
      lookup. */
  predicate RowOk(row: Request) {
    && Race.Left(row) >= 0
    && (!row.status.IsComplete() ==> row.finishTime.None?)
    && (row.status.PendingLookup? ==> row.files == 0)
  }

  lemma HappenKeepsRow(hs: seq<Handler>, s: Race.Race, e: Event)
    requires |s.stages| == |hs| && (e.Turn? ==> e.handler < |hs|)
    requires RowOk(s.row) && Permitted(s, e)
    ensures RowOk(Happen(hs, s, e).row)
    ensures Race.Left(Happen(hs, s, e).row) == Race.Left(s.row) + Given(s.row, e)
      - if e.Turn? && s.stages[e.handler].Begin? then 1 else 0
  {
  }

  lemma {:induction false} RunKeepsRow(hs: seq<Handler>, row: Request, es: Events)
    requires Among(es, |hs|) && Lawful(hs, row, es) && RowOk(row)
    ensures RowOk(RowAt(hs, row, es))
  {
    if es.After? {
      RunKeepsRow(hs, row, es.past);
      HappenKeepsRow(hs, Run(hs, row, es.past), es.event);
    }
  }

  /** From the moment at which a handler read that no file remains, what remains is what was given
      since less what was counted since. */
  lemma {:induction false} LeftSinceRead(hs: seq<Handler>, row: Request, es: Events, h: nat)
    requires Among(es, |hs|) && Lawful(hs, row, es) && RowOk(row)
    requires h < |hs| && SawNone(StageAt(hs, row, es, h))
    ensures Race.Left(RowAt(hs, row, es)) == GivenSince(hs, row, es, h) - CountedSince(hs, row, es, h)
  {
    RunKeepsRow(hs, row, es.past);
    HappenKeepsRow(hs, Run(hs, row, es.past), es.event);
    if StageAt(hs, row, es.past, h).Rank() >= 3 {
      LeftSinceRead(hs, row, es.past, h);
    }
  }

  // ---------------------------------------------------------------- ending early

  /** The row says that its reports finished it, but files remain. */
  predicate EndedEarly(row: Request) {
    row.status.Complete? && row.finishTime.Some? && Race.Left(row) > 0
  }

  predicate EverEndedEarly(hs: seq<Handler>, row: Request, es: Events)
    requires Among(es, |hs|)
  {
    EndedEarly(RowAt(hs, row, es)) || (es.After? && EverEndedEarly(hs, row, es.past))
  }

  /** Some handler completed the request after more files were given to it than reports were counted
      since the handler had read that none remains. */
  predicate Overtaken(hs: seq<Handler>, row: Request, es: Events)
    requires Among(es, |hs|)
  {
    es.After? &&
    (Overtaken(hs, row, es.past)
     || (es.event.Turn? && StageAt(hs, row, es.past, es.event.handler) == Race.Judged(true)
         && GivenSince(hs, row, es.past, es.event.handler) > CountedSince(hs, row, es.past, es.event.handler)))
  }

  /** An event makes a row end early only if it is the last turn of a handler with files remaining. */
  lemma EndsEarlyBy(hs: seq<Handler>, s: Race.Race, e: Event)
    requires |s.stages| == |hs| && (e.Turn? ==> e.handler < |hs|)
    requires RowOk(s.row) && Permitted(s, e)
    ensures EndedEarly(Happen(hs, s, e).row) ==>
      EndedEarly(s.row) || (e.Turn? && s.stages[e.handler] == Race.Judged(true) && Race.Left(s.row) > 0)
    ensures e.Turn? && s.stages[e.handler] == Race.Judged(true) && Race.Left(s.row) > 0 ==>
      EndedEarly(Happen(hs, s, e).row)
  {
  }

  /** Whatever the order of events, a request is ever complete with files remaining exactly when a handler
      was overtaken between its read and its last turn. */
  lemma {:induction false} EndsEarlyIffOvertaken(hs: seq<Handler>, row: Request, es: Events)
    requires Among(es, |hs|) && Lawful(hs, row, es) && RowOk(row) && !row.status.Complete?
    ensures EverEndedEarly(hs, row, es) <==> Overtaken(hs, row, es)
  {
    if es.After? {
      var s, e := Run(hs, row, es.past), es.event;
      EndsEarlyIffOvertaken(hs, row, es.past);
      RunKeepsRow(hs, row, es.past);
      EndsEarlyBy(hs, s, e);
      if e.Turn? && s.stages[e.handler] == Race.Judged(true) {
        LeftSinceRead(hs, row, es.past, e.handler);
      }
    }
  }

  predicate AwaitsFiles(row: Request) {
    row.status.Lookup? || row.status.PendingLookup?
  }

  lemma {:induction false} NothingGiven(hs: seq<Handler>, row: Request, es: Events, h: nat)
    requires Among(es, |hs|) && h < |hs| && !AwaitsFiles(row)
    ensures !AwaitsFiles(RowAt(hs, row, es)) && GivenSince(hs, row, es, h) == 0
  {
    if es.After? {
      NothingGiven(hs, row, es.past, h);
    }
  }

  /** If a request does not wait for files any more, no order of reports and other events from then on makes
      it complete while files remain. */
  lemma {:induction false} SafeOnceClosed(hs: seq<Handler>, row: Request, es: Events)
    requires Among(es, |hs|) && Lawful(hs, row, es) && RowOk(row) && !row.status.Complete? && !AwaitsFiles(row)
    ensures !EverEndedEarly(hs, row, es)
  {
    EndsEarlyIffOvertaken(hs, row, es);
    NeverOvertaken(hs, row, es);
  }

  lemma {:induction false} NeverOvertaken(hs: seq<Handler>, row: Request, es: Events)
    requires Among(es, |hs|) && !AwaitsFiles(row)
    ensures !Overtaken(hs, row, es)
  {
    if es.After? {
      NeverOvertaken(hs, row, es.past);
      if es.event.Turn? {
        NothingGiven(hs, row, es.past, es.event.handler);
      }
    }
  }

  /** Every reachable row is one that the theorems speak of. */
  lemma ReachableRowOk(c: Config, h: History, r: nat)
    requires Protocol.Lawful(c, h) && HasRequest(c, h, r)
    ensures RowOk(RequestAt(c, h, r))
  {
    AllReportedIsComplete(c, h, r);
    ReachableInv(c, h);
  }

  /** No run of whole handlers reaches a row that ended early. */
  lemma WholeHandlersNeverEndEarly(c: Config, h: History, r: nat)
    requires Protocol.Lawful(c, h) && HasRequest(c, h, r)
    ensures !EndedEarly(RequestAt(c, h, r))
  {
    AllReportedIsComplete(c, h, r);
  }

  /** One file remains and is reported; between the read and the last turn another file is posted. */
  lemma BatchOvertakesWitness(row: Request, a: Handler, file: DatasetFile)
    requires row.status.Lookup? && row.files > 0 && Race.Left(row) == 1
    ensures var es := After(After(After(After(After(Quiet, Turn(0)), Turn(0)), Turn(0)), Batch([file])), Turn(0));
      && Lawful([a], row, es) && Overtaken([a], row, es)
      && EndedEarly(RowAt([a], row, es)) && RowAt([a], row, es).FilesRemaining() == Some(1)
  {
    var e1 := After(Quiet, Turn(0));
    var e2 := After(e1, Turn(0));
    var e3 := After(e2, Turn(0));
    var e4 := After(e3, Batch([file]));
    assert Run([a], row, Quiet) == Race.Race(row, [Race.Begin]);
    assert Lawful([a], row, Quiet);
    assert Run([a], row, e1) == Race.Race(row.Counted(a.report), [Race.Stage.Counted]);
    assert Lawful([a], row, e1);
    assert Run([a], row, e2) == Race.Race(row.Counted(a.report).Saved(a.report), [Race.Stage.Saved]);
    assert Lawful([a], row, e2);
    assert Run([a], row, e3) == Race.Race(row.Counted(a.report).Saved(a.report), [Race.Judged(true)]);
    assert Lawful([a], row, e3);
    assert StageAt([a], row, e4, 0) == Race.Judged(true);
    assert Lawful([a], row, e4);
    assert GivenSince([a], row, e3, 0) == 0 && CountedSince([a], row, e3, 0) == 0;
  }
}
