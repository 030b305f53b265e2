/** File-complete handlers running at the same time for one request. A handler commits four times:
    it counts the report (the increment is made by the database), saves the result, reads the number
    of remaining files, and, if that was zero, completes the request. Any handler may take its next
    step at any moment. */
module FileCompleteRace {
  import opened Text
  import opened Bags
  import opened Models
  import opened Protocol
  import opened ProtocolInvariant

  datatype Handler = Handler(report: Report, now: int)

  datatype Stage = Begin | Counted | Saved | Judged(last: bool) | Done(last: bool) {
    function Rank(): nat {
      match this
      case Begin => 0
      case Counted => 1
      case Saved => 2
      case Judged(_) => 3
      case Done(_) => 4
    }

    predicate Completes() { Done? && last }
  }

  datatype Race = Race(row: Request, stages: seq<Stage>)

  function StartRace(row: Request, n: nat): Race {
    Race(row, seq(n, _ => Begin))
  }

  /** Handler `h` takes its next step. */
  function Advance(hs: seq<Handler>, s: Race, h: nat): Race
    requires |s.stages| == |hs| && h < |hs|
  {
    match s.stages[h]
    case Begin => Race(s.row.Counted(hs[h].report), s.stages[h := Stage.Counted])
    case Counted => Race(s.row.Saved(hs[h].report), s.stages[h := Stage.Saved])
    case Saved => Race(s.row, s.stages[h := Judged(s.row.FilesRemaining() == Some(0))])
    case Judged(last) => Race(if last then s.row.Finished(hs[h].now) else s.row, s.stages[h := Done(last)])
    case Done(_) => s
  }

  /** The order in which handlers take their steps. */
  datatype Schedule = Idle | Next(past: Schedule, handler: nat)

  predicate Among(sch: Schedule, n: nat) {
    sch.Next? ==> sch.handler < n && Among(sch.past, n)
  }

  function Run(hs: seq<Handler>, row: Request, sch: Schedule): (s: Race)
    requires Among(sch, |hs|)
    ensures |s.stages| == |hs|
  {
    match sch
    case Idle => StartRace(row, |hs|)
    case Next(past, h) => Advance(hs, Run(hs, row, past), h)
  }

  // ---------------------------------------------------------------- reading a schedule

  function Turns(sch: Schedule, h: nat): nat {
    match sch
    case Idle => 0
    case Next(past, g) => Turns(past, h) + if g == h then 1 else 0
  }

  /** Every one of the `n` handlers has counted its report. */
  predicate AllCounted(sch: Schedule, n: nat) {
    forall h :: 0 <= h < n ==> Turns(sch, h) >= 1
  }

  /** The part of the schedule before handler `h` reads the number of remaining files. */
  function BeforeCheck(sch: Schedule, h: nat): Schedule {
    if Turns(sch, h) <= 2 then sch else BeforeCheck(sch.past, h)
  }

  /** The handlers in the order in which they took their turn `t`, counting from 0. */
  function Order(sch: Schedule, t: nat): seq<nat> {
    match sch
    case Idle => []
    case Next(past, h) => if Turns(past, h) == t then Order(past, t) + [h] else Order(past, t)
  }

  lemma {:induction false} TurnsOfOthers(sch: Schedule, h: nat, n: nat)
    requires Among(sch, n) && Turns(sch, h) > 0
    ensures h < n
  {
    if sch.handler != h {
      TurnsOfOthers(sch.past, h, n);
    }
  }

  /** A handler stands in the order of turn `t` once it took that turn, and only once. */
  lemma {:induction false} OrderIs(sch: Schedule, t: nat)
    ensures Distinct(Order(sch, t))
    ensures forall h: nat :: h in Order(sch, t) <==> Turns(sch, h) > t
  {
    if sch.Next? {
      OrderIs(sch.past, t);
    }
  }

  predicate AllPast(sch: Schedule, n: nat, t: nat) {
    forall h :: 0 <= h < n ==> Turns(sch, h) > t
  }

  lemma OrderSize(sch: Schedule, n: nat, t: nat)
    requires Among(sch, n)
    ensures |Order(sch, t)| <= n
    ensures |Order(sch, t)| == n <==> AllPast(sch, n, t)
  {
    var ids := Order(sch, t);
    OrderIs(sch, t);
    DistinctBySize(ids);
    forall h: nat | h in ids ensures h < n {
      TurnsOfOthers(sch, h, n);
    }
    assert ToSet(ids) <= Below(n);
    SubsetCardinality(ToSet(ids), Below(n));
    if AllPast(sch, n, t) {
      assert Below(n) <= ToSet(ids);
    } else {
      var h :| 0 <= h < n && Turns(sch, h) <= t;
      assert h in Below(n) && h !in ToSet(ids);
    }
  }

  predicate Within(ids: seq<nat>, n: nat) {
    forall i :: 0 <= i < |ids| ==> ids[i] < n
  }

  lemma OrderWithin(sch: Schedule, n: nat, t: nat)
    requires Among(sch, n)
    ensures Within(Order(sch, t), n)
  {
    OrderIs(sch, t);
    forall i | 0 <= i < |Order(sch, t)| ensures Order(sch, t)[i] < n {
      assert Order(sch, t)[i] in Order(sch, t);
      TurnsOfOthers(sch, Order(sch, t)[i], n);
    }
  }

  function Pick(hs: seq<Handler>, ids: seq<nat>): (r: seq<Handler>)
    requires Within(ids, |hs|)
    ensures |r| == |ids|
  {
    seq(|ids|, i requires 0 <= i < |ids| => hs[ids[i]])
  }

  function Reports(hs: seq<Handler>): seq<Report> {
    Map((h: Handler) => h.report, hs)
  }

  /** When all took turn `t`, the order of that turn is a permutation of the handlers. */
  lemma OrderPermutes(hs: seq<Handler>, sch: Schedule, t: nat)
    requires Among(sch, |hs|) && AllPast(sch, |hs|, t)
    requires Within(Order(sch, t), |hs|)
    ensures multiset(Pick(hs, Order(sch, t))) == multiset(hs)
  {
    var all := seq(|hs|, i requires 0 <= i < |hs| => i);
    OrderIs(sch, t);
    forall h: nat ensures h in Order(sch, t) <==> h in all {
      if h in Order(sch, t) {
        TurnsOfOthers(sch, h, |hs|);
        assert all[h] == h;
      }
    }
    DistinctSameElements(Order(sch, t), all);
    PickPermutes(hs, Order(sch, t), all);
    assert Pick(hs, all) == hs;
  }

  lemma PickPermutes(hs: seq<Handler>, a: seq<nat>, b: seq<nat>)
    requires Within(a, |hs|) && Within(b, |hs|) && multiset(a) == multiset(b)
    ensures multiset(Pick(hs, a)) == multiset(Pick(hs, b))
  {
    SameSize(a, b);
    if hs != [] {
      var pick := (h: nat) => if h < |hs| then hs[h] else hs[0];
      MapPermutes(pick, a, b);
      assert Map(pick, a) == Pick(hs, a) && Map(pick, b) == Pick(hs, b);
    } else {
      assert Pick(hs, a) == Pick(hs, b);
    }
  }

  // ---------------------------------------------------------------- every interleaving

  function Left(row: Request): int { row.files - row.filesCompleted - row.filesFailed }

  function CountedBy(hs: seq<Handler>, sch: Schedule): seq<Report>
    requires Among(sch, |hs|)
  {
    OrderWithin(sch, |hs|, 0);
    Reports(Pick(hs, Order(sch, 0)))
  }

  function SavedBy(hs: seq<Handler>, sch: Schedule): seq<Report>
    requires Among(sch, |hs|)
  {
    OrderWithin(sch, |hs|, 1);
    Reports(Pick(hs, Order(sch, 1)))
  }

  /** What holds of the row at any moment: it has the results of those that saved, in the order in which
      they did, and the counts of those that counted. */
  predicate RaceOk(row: Request, now: Request, counted: seq<Report>, saved: seq<Report>) {
    && now.datasetId == row.datasetId && now.files == row.files && now.sent == row.sent
    && now.results == row.results + saved
    && now.filesCompleted == row.filesCompleted + Successes(counted)
    && now.filesCompleted + now.filesFailed == row.filesCompleted + row.filesFailed + |counted|
  }

  /** The stage of a handler is told by the number of its turns. */
  lemma {:induction false} StageByTurns(hs: seq<Handler>, row: Request, sch: Schedule, h: nat)
    requires Among(sch, |hs|) && h < |hs|
    ensures Run(hs, row, sch).stages[h].Rank() == if Turns(sch, h) < 4 then Turns(sch, h) else 4
  {
    if sch.Next? {
      StageByTurns(hs, row, sch.past, h);
    }
  }

  lemma OrderNext(hs: seq<Handler>, sch: Schedule, h: nat)
    requires Among(sch, |hs|) && h < |hs|
    ensures CountedBy(hs, Next(sch, h)) == CountedBy(hs, sch) + if Turns(sch, h) == 0 then [hs[h].report] else []
    ensures SavedBy(hs, Next(sch, h)) == SavedBy(hs, sch) + if Turns(sch, h) == 1 then [hs[h].report] else []
  {
  }

  lemma {:induction false} RunOk(hs: seq<Handler>, row: Request, sch: Schedule)
    requires Among(sch, |hs|)
    ensures RaceOk(row, Run(hs, row, sch).row, CountedBy(hs, sch), SavedBy(hs, sch))
  {
    if sch.Next? {
      RunOk(hs, row, sch.past);
      StageByTurns(hs, row, sch.past, sch.handler);
      OrderNext(hs, sch.past, sch.handler);
      SuccessesSnoc(CountedBy(hs, sch.past), hs[sch.handler].report);
    }
  }

  lemma LeftZeroIffAllCounted(hs: seq<Handler>, row: Request, sch: Schedule)
    requires Among(sch, |hs|) && |hs| <= Left(row)
    ensures Left(Run(hs, row, sch).row) == 0 <==> |hs| == Left(row) && AllCounted(sch, |hs|)
  {
    RunOk(hs, row, sch);
    OrderSize(sch, |hs|, 0);
    assert AllPast(sch, |hs|, 0) <==> AllCounted(sch, |hs|);
  }

  /** What a handler reads: it finds nothing remaining exactly when there is a handler for every
      remaining file and all have counted their reports before the read. */
  lemma {:induction false} VerdictByOrder(hs: seq<Handler>, row: Request, sch: Schedule, h: nat)
    requires Among(sch, |hs|) && h < |hs| <= Left(row)
    requires Turns(sch, h) >= 3
    ensures var stage := Run(hs, row, sch).stages[h];
      (stage.Judged? || stage.Done?)
      && (stage.last <==> |hs| == Left(row) && AllCounted(BeforeCheck(sch, h), |hs|))
  {
    StageByTurns(hs, row, sch.past, h);
    if sch.handler == h && Turns(sch.past, h) == 2 {
      RunOk(hs, row, sch.past);
      LeftZeroIffAllCounted(hs, row, sch.past);
      assert BeforeCheck(sch, h) == sch.past;
    } else {
      VerdictByOrder(hs, row, sch.past, h);
    }
  }

  /** Exactly the handlers whose read follows the last count complete the request. */
  lemma CompletersByOrder(hs: seq<Handler>, row: Request, sch: Schedule, h: nat)
    requires Among(sch, |hs|) && h < |hs| <= Left(row)
    ensures Run(hs, row, sch).stages[h].Completes()
       <==> Turns(sch, h) >= 4 && |hs| == Left(row) && AllCounted(BeforeCheck(sch, h), |hs|)
  {
    StageByTurns(hs, row, sch, h);
    if Turns(sch, h) >= 3 {
      VerdictByOrder(hs, row, sch, h);
    }
  }

  predicate SomeoneCompleted(s: Race) {
    exists h :: 0 <= h < |s.stages| && s.stages[h].Completes()
  }

  /** The status changes exactly when some handler completes the request. */
  lemma {:induction false} StatusByCompleters(hs: seq<Handler>, row: Request, sch: Schedule)
    requires Among(sch, |hs|)
    ensures var s := Run(hs, row, sch);
      s.row.status == if SomeoneCompleted(s) then TransformStatus.Complete else row.status
  {
    if sch.Next? {
      var s, s', h := Run(hs, row, sch.past), Run(hs, row, sch), sch.handler;
      StatusByCompleters(hs, row, sch.past);
      assert forall g :: 0 <= g < |hs| && g != h ==> s'.stages[g] == s.stages[g];
      if SomeoneCompleted(s) {
        var g :| 0 <= g < |hs| && s.stages[g].Completes();
        assert s'.stages[g].Completes();
      } else if SomeoneCompleted(s') {
        var g :| 0 <= g < |hs| && s'.stages[g].Completes();
        assert !s.stages[g].Completes();
      } else {
        assert !s'.stages[h].Completes();
      }
    }
  }

  /** Once all have counted, some handler has yet to read or will complete the request. */
  predicate SomeoneWill(s: Race) {
    exists h :: 0 <= h < |s.stages| &&
      (s.stages[h].Counted? || s.stages[h].Saved? || ((s.stages[h].Judged? || s.stages[h].Done?) && s.stages[h].last))
  }

  lemma {:induction false} SomeoneAlwaysWill(hs: seq<Handler>, row: Request, sch: Schedule)
    requires Among(sch, |hs|) && 0 < |hs| == Left(row)
    requires AllCounted(sch, |hs|)
    ensures SomeoneWill(Run(hs, row, sch))
  {
    assert Turns(sch, 0) >= 1;
    var s, s', h := Run(hs, row, sch.past), Run(hs, row, sch), sch.handler;
    StageByTurns(hs, row, sch.past, h);
    StageByTurns(hs, row, sch, h);
    if AllCounted(sch.past, |hs|) {
      SomeoneAlwaysWill(hs, row, sch.past);
      RunOk(hs, row, sch.past);
      LeftZeroIffAllCounted(hs, row, sch.past);
      var g :| 0 <= g < |hs| && (s.stages[g].Counted? || s.stages[g].Saved? ||
        ((s.stages[g].Judged? || s.stages[g].Done?) && s.stages[g].last));
      assert s'.stages[g].Counted? || s'.stages[g].Saved? ||
        ((s'.stages[g].Judged? || s'.stages[g].Done?) && s'.stages[g].last);
    } else {
      var g :| 0 <= g < |hs| && Turns(sch.past, g) == 0;
      assert Turns(sch, g) >= 1;
      assert s'.stages[h].Counted?;
    }
  }

  // ---------------------------------------------------------------- one after the other

  /** The row after the handlers went through one after the other, uninterrupted. */
  function Atomically(row: Request, hs: seq<Handler>): Request {
    if hs == [] then row
    else
      var last := hs[|hs| - 1];
      WithReport(Atomically(row, hs[..|hs| - 1]), last.report, last.now)
  }

  lemma AtomicallyNext(row: Request, now: Request, reports: seq<Report>, last: Handler)
    requires RaceOk(row, now, reports, reports) && |reports| < Left(row)
    requires now.status == row.status
    ensures var after := WithReport(now, last.report, last.now);
      && RaceOk(row, after, reports + [last.report], reports + [last.report])
      && after.status == if |reports| + 1 == Left(row) then TransformStatus.Complete else row.status
  {
    SuccessesSnoc(reports, last.report);
  }

  lemma {:induction false} AtomicallyIs(row: Request, hs: seq<Handler>)
    requires |hs| <= Left(row)
    ensures RaceOk(row, Atomically(row, hs), Reports(hs), Reports(hs))
    ensures Atomically(row, hs).status ==
      if hs != [] && |hs| == Left(row) then TransformStatus.Complete else row.status
  {
    if hs != [] {
      var front, last := hs[..|hs| - 1], hs[|hs| - 1];
      AtomicallyIs(row, front);
      AtomicallyNext(row, Atomically(row, front), Reports(front), last);
      assert Reports(hs) == Reports(front) + [last.report];
    }
  }

  function Flags(reports: seq<Report>): seq<bool> {
    Map((report: Report) => report.IsSuccess(), reports)
  }

  lemma {:induction false} SuccessesAreFlags(reports: seq<Report>)
    ensures Successes(reports) == multiset(Flags(reports))[true]
  {
    if reports != [] {
      var front, last := reports[..|reports| - 1], reports[|reports| - 1];
      SuccessesAreFlags(front);
      assert Flags(reports) == Flags(front) + [last.IsSuccess()];
    }
  }

  lemma SuccessesPermute(a: seq<Report>, b: seq<Report>)
    requires multiset(a) == multiset(b)
    ensures Successes(a) == Successes(b)
  {
    SuccessesAreFlags(a);
    SuccessesAreFlags(b);
    MapPermutes((report: Report) => report.IsSuccess(), a, b);
  }

  /** Two rows that differ at most in the finish time and the number of shutdowns. */
  predicate SameButFinish(a: Request, b: Request) {
    a == b.(finishTime := a.finishTime, shutdowns := a.shutdowns)
  }

  /** Every interleaving that runs to its end leaves the row that the handlers leave one after the other,
      in the order in which they saved, up to the finish time and the number of shutdowns. */
  lemma InterleavingIsAtomic(hs: seq<Handler>, row: Request, sch: Schedule) returns (order: seq<Handler>)
    requires Among(sch, |hs|) && |hs| <= Left(row)
    requires forall h :: 0 <= h < |hs| ==> Turns(sch, h) >= 4
    ensures multiset(order) == multiset(hs)
    ensures SameButFinish(Run(hs, row, sch).row, Atomically(row, order))
  {
    OrderWithin(sch, |hs|, 0);
    OrderWithin(sch, |hs|, 1);
    OrderPermutes(hs, sch, 0);
    OrderPermutes(hs, sch, 1);
    order := Pick(hs, Order(sch, 1));
    SameSize(order, hs);
    RunOk(hs, row, sch);
    AtomicallyIs(row, order);
    MapPermutes((h: Handler) => h.report, Pick(hs, Order(sch, 0)), order);
    SuccessesPermute(CountedBy(hs, sch), SavedBy(hs, sch));
    SameSize(CountedBy(hs, sch), SavedBy(hs, sch));
    EndsComplete(hs, row, sch);
  }

  /** When all handlers ran to their end, the request is complete exactly if they were as many as the
      remaining files, or if it was before. */
  lemma EndsComplete(hs: seq<Handler>, row: Request, sch: Schedule)
    requires Among(sch, |hs|) && |hs| <= Left(row)
    requires forall h :: 0 <= h < |hs| ==> Turns(sch, h) >= 4
    ensures var s := Run(hs, row, sch);
      && (SomeoneCompleted(s) <==> hs != [] && |hs| == Left(row))
      && s.row.status == if hs != [] && |hs| == Left(row) then TransformStatus.Complete else row.status
  {
    var s := Run(hs, row, sch);
    StatusByCompleters(hs, row, sch);
    if SomeoneCompleted(s) {
      var h :| 0 <= h < |s.stages| && s.stages[h].Completes();
      CompletersByOrder(hs, row, sch, h);
    }
    if hs != [] && |hs| == Left(row) {
      SomeoneAlwaysWill(hs, row, sch);
      forall h | 0 <= h < |hs| ensures s.stages[h].Done? {
        StageByTurns(hs, row, sch, h);
      }
    }
  }

  function Completers(stages: seq<Stage>): set<nat> {
    set h: nat | h < |stages| && stages[h].Completes()
  }

  lemma CompletersUpdate(stages: seq<Stage>, h: nat, stage: Stage)
    requires h < |stages| && (stages[h].Completes() ==> stage.Completes())
    ensures |Completers(stages[h := stage])| ==
      |Completers(stages)| + if stage.Completes() && !stages[h].Completes() then 1 else 0
  {
    if stage.Completes() && !stages[h].Completes() {
      assert Completers(stages[h := stage]) == Completers(stages) + {h};
    } else {
      assert Completers(stages[h := stage]) == Completers(stages);
    }
  }

  lemma AdvanceShutsDown(hs: seq<Handler>, s: Race, h: nat)
    requires |s.stages| == |hs| && h < |hs|
    ensures var s' := Advance(hs, s, h);
      && s'.stages == s.stages[h := s'.stages[h]] && (s.stages[h].Completes() ==> s'.stages[h].Completes())
      && s'.row.shutdowns ==
           s.row.shutdowns + if s'.stages[h].Completes() && !s.stages[h].Completes() then 1 else 0
  {
  }

  /** The transformers are shut down once by each handler that completes the request. */
  lemma {:induction false} ShutdownsByCompleters(hs: seq<Handler>, row: Request, sch: Schedule)
    requires Among(sch, |hs|)
    ensures var s := Run(hs, row, sch); s.row.shutdowns == row.shutdowns + |Completers(s.stages)|
  {
    match sch
    case Idle =>
      assert Completers(Run(hs, row, sch).stages) == {};
    case Next(past, h) =>
      ShutdownsByCompleters(hs, row, past);
      AdvanceShutsDown(hs, Run(hs, row, past), h);
      CompletersUpdate(Run(hs, row, past).stages, h, Run(hs, row, sch).stages[h]);
  }

  /** No completion is lost: when as many handlers as there are remaining files have run to their
      end, in whatever interleaving, the request is complete, nothing remains, the saved results are
      the reports of the handlers, each was counted once, and the transformers were shut down by some
      handler, once for each that completed the request. */
  lemma NoLostCompletion(hs: seq<Handler>, row: Request, sch: Schedule)
    requires Among(sch, |hs|) && 0 < |hs| == Left(row)
    requires forall h :: 0 <= h < |hs| ==> Turns(sch, h) >= 4
    ensures var s := Run(hs, row, sch);
      && s.row.status.Complete? && s.row.FilesRemaining() == Some(0)
      && multiset(s.row.results) == multiset(row.results) + multiset(Reports(hs))
      && s.row.filesCompleted == row.filesCompleted + Successes(Reports(hs))
      && s.row.filesFailed == row.filesFailed + |hs| - Successes(Reports(hs))
      && SomeoneCompleted(s) && s.row.shutdowns == row.shutdowns + |Completers(s.stages)|
  {
    EndsComplete(hs, row, sch);
    ShutdownsByCompleters(hs, row, sch);
    var order := InterleavingIsAtomic(hs, row, sch);
    SameSize(order, hs);
    AtomicallyIs(row, order);
    MapPermutes((h: Handler) => h.report, order, hs);
    SuccessesPermute(Reports(order), Reports(hs));
  }

  /** The status is set only when nothing remains: a request in any status but complete, looked up or
      canceled ones included, is never completed by fewer handlers than remaining files. */
  lemma CompletedOnlyAtZero(hs: seq<Handler>, row: Request, sch: Schedule)
    requires Among(sch, |hs|) && |hs| <= Left(row) && !row.status.Complete?
    ensures var s := Run(hs, row, sch);
      s.row.status.Complete? ==> |hs| == Left(row) && s.row.FilesRemaining() == Some(0) && AllCounted(sch, |hs|)
  {
    var s := Run(hs, row, sch);
    StatusByCompleters(hs, row, sch);
    if SomeoneCompleted(s) {
      var h :| 0 <= h < |s.stages| && s.stages[h].Completes();
      StageByTurns(hs, row, sch, h);
      VerdictByOrder(hs, row, sch, h);
      CountedStays(sch, h, |hs|);
      LeftZeroIffAllCounted(hs, row, sch);
      RunOk(hs, row, sch);
    }
  }

  lemma {:induction false} CountedStays(sch: Schedule, h: nat, n: nat)
    requires AllCounted(BeforeCheck(sch, h), n)
    ensures AllCounted(sch, n)
  {
    if Turns(sch, h) > 2 {
      CountedStays(sch.past, h, n);
      assert forall g :: 0 <= g < n ==> Turns(sch, g) >= Turns(sch.past, g);
    }
  }

  /** A completed request may still wait for results to be saved: all of them are there exactly
      when no handler stands between its count and its save. */
  lemma CompletedHasAllResults(hs: seq<Handler>, row: Request, sch: Schedule)
    requires Among(sch, |hs|) && |hs| <= Left(row) && !row.status.Complete?
    requires Run(hs, row, sch).row.status.Complete?
    ensures |Run(hs, row, sch).row.results| == |row.results| + |hs|
       <==> forall h :: 0 <= h < |hs| ==> Turns(sch, h) != 1
  {
    CompletedOnlyAtZero(hs, row, sch);
    ResultsByTurns(hs, row, sch);
    CountedOrSaved(sch, |hs|);
  }

  lemma CountedOrSaved(sch: Schedule, n: nat)
    requires AllCounted(sch, n)
    ensures AllPast(sch, n, 1) <==> forall h :: 0 <= h < n ==> Turns(sch, h) != 1
  {
    if !AllPast(sch, n, 1) {
      var h :| 0 <= h < n && Turns(sch, h) <= 1;
      assert Turns(sch, h) == 1;
    }
  }

  lemma ResultsByTurns(hs: seq<Handler>, row: Request, sch: Schedule)
    requires Among(sch, |hs|)
    ensures |Run(hs, row, sch).row.results| == |row.results| + |hs|
       <==> AllPast(sch, |hs|, 1)
  {
    RunOk(hs, row, sch);
    OrderSize(sch, |hs|, 1);
  }

  /** Two handlers: the second counts, the first goes through and completes the request before
      the second has saved its result. */
  lemma CompleteBeforeSavedWitness(row: Request, a: Handler, b: Handler)
    requires row.status.Running? && Left(row) == 2
    ensures var sch := Next(Next(Next(Next(Next(Idle, 1), 0), 0), 0), 0);
      var s := Run([a, b], row, sch);
      s.row.status.Complete? && |s.row.results| == |row.results| + 1
  {
    var sch1 := Next(Next(Idle, 1), 0);
    var sch2 := Next(Next(Next(sch1, 0), 0), 0);
    assert Run([a, b], row, Idle).stages == [Begin, Begin];
    assert Run([a, b], row, Next(Idle, 1)).stages == [Begin, Stage.Counted];
    var s1 := Run([a, b], row, sch1);
    assert s1.stages == [Stage.Counted, Stage.Counted];
    assert Left(s1.row) == 0 && s1.row.results == row.results;
    var s2 := Run([a, b], row, Next(sch1, 0));
    assert s2.stages[0].Saved?;
    var s3 := Run([a, b], row, Next(Next(sch1, 0), 0));
    assert s3.stages[0] == Judged(true);
  }

  /** A handler that is not interrupted does what the protocol takes as one step. */
  lemma UninterruptedIsAtomic(hs: seq<Handler>, s: Race, h: nat)
    requires |s.stages| == |hs| && h < |hs| && s.stages[h].Begin?
    ensures var s4 := Advance(hs, Advance(hs, Advance(hs, Advance(hs, s, h), h), h), h);
      s4.row == WithReport(s.row, hs[h].report, hs[h].now) && s4.stages[h].Done?
  {
    var s1 := Advance(hs, s, h);
    var s2 := Advance(hs, s1, h);
    var s3 := Advance(hs, s2, h);
    assert s3.stages[h] == Judged(s2.row.FilesRemaining() == Some(0));
  }
}
