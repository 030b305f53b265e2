/** The transformation of one file told from the text that the container sends: which record is made, what
    the container is sent and what is uploaded. */
module Transcripts {
  import opened Text
  import Bags
  import opened Models
  import opened Sidecar

  // ---------------------------------------------------------------- from text to attempts

  /** Text that is no request for work, and does not close the connection. */
  predicate PassedOver(item: Incoming) {
    item.Data? && item.text != "" && !(|item.text| >= 3 && item.text[..3] == "GeT")
  }

  predicate AllPassedOver(items: seq<Incoming>) {
    forall i :: 0 <= i < |items| ==> PassedOver(items[i])
  }

  /** What is received in one attempt that is answered: text that is passed over, a request for work and
      an answer with spaces around it. */
  datatype Round = Round(skipped: seq<Incoming>, ask: string, before: string, reply: string, after: string) {
    function Items(): seq<Incoming> {
      skipped + [Data("GeT" + ask), Data(before + reply + after)]
    }

    predicate Proper() {
      AllPassedOver(skipped) && AllSpaces(before) && AllSpaces(after) && Bare(reply)
    }
  }

  function Transcript(rounds: seq<Round>): seq<Incoming> {
    if rounds == [] then [] else rounds[0].Items() + Transcript(rounds[1..])
  }

  lemma SynchedBehind(skipped: seq<Incoming>, tail: seq<Incoming>)
    requires AllPassedOver(skipped)
    ensures tail == [] ==> Synched(skipped + tail) == (Closed, [])
    ensures tail != [] && tail[0] == Data("") ==> Synched(skipped + tail) == (Closed, tail[1..])
    ensures tail != [] && tail[0].Garbled? ==> Synched(skipped + tail) == (Raised, tail[1..])
    ensures tail != [] && tail[0].Data? && |tail[0].text| >= 3 && tail[0].text[..3] == "GeT" ==>
      Synched(skipped + tail) == (Ready, tail[1..])
  {
    var inbox, k := skipped + tail, |skipped|;
    assert inbox[k..] == tail;
    assert tail != [] ==> inbox[k + 1..] == tail[1..];
    forall i | 0 <= i < k ensures Skipped(inbox[i]) {
      assert PassedOver(skipped[i]);
    }
    if tail == [] || !Skipped(tail[0]) {
      SynchedByFirst(inbox, k);
    }
  }

  lemma RoundIsAnswered(round: Round, rest: seq<Incoming>, hazard: Hazard)
    requires round.Proper() && !hazard.SendFails? && !hazard.StatsFail?
    ensures Script.Meet(round.Items() + rest, hazard) == (Answered(round.reply), rest)
  {
    var tail := [Data("GeT" + round.ask), Data(round.before + round.reply + round.after)] + rest;
    assert round.Items() + rest == round.skipped + tail;
    assert ("GeT" + round.ask)[..3] == "GeT";
    SynchedBehind(round.skipped, tail);
    assert tail[1..] == [Data(round.before + round.reply + round.after)] + rest;
    StripTrims(round.before, round.reply, round.after);
  }

  /** The container sends these rounds first, and nothing raises in them. */
  predicate Follows(script: Script, rounds: seq<Round>, rest: seq<Incoming>) {
    && script.inbox == Transcript(rounds) + rest
    && forall k :: 0 <= k < |rounds| ==> rounds[k].Proper() && script.HazardAt(k).Calm?
  }

  lemma {:induction false} InboxFollows(script: Script, rounds: seq<Round>, rest: seq<Incoming>, k: nat)
    requires Follows(script, rounds, rest) && k <= |rounds|
    ensures script.InboxAt(k) == Transcript(rounds[k..]) + rest
    ensures k > 0 ==> script.AttemptAt(k - 1) == Answered(rounds[k - 1].reply)
  {
    if k == 0 {
      assert rounds[0..] == rounds;
    } else {
      InboxFollows(script, rounds, rest, k - 1);
      var left := rounds[k - 1..];
      assert left[0] == rounds[k - 1] && left[1..] == rounds[k..];
      assert Transcript(left) + rest == rounds[k - 1].Items() + (Transcript(rounds[k..]) + rest);
      RoundIsAnswered(rounds[k - 1], Transcript(rounds[k..]) + rest, script.HazardAt(k - 1));
    }
  }

  /** None of the first `n` answers is success. */
  predicate NoSuccess(rounds: seq<Round>, n: nat)
    requires n <= |rounds|
  {
    forall k :: 0 <= k < n ==> rounds[k].reply != "success."
  }

  lemma RoundsAreRefused(script: Script, rounds: seq<Round>, rest: seq<Incoming>, n: nat)
    requires Follows(script, rounds, rest) && n <= |rounds| && NoSuccess(rounds, n)
    ensures forall k :: 0 <= k < n ==> script.Refused(k)
  {
    forall k | 0 <= k < n ensures script.Refused(k) {
      InboxFollows(script, rounds, rest, k + 1);
    }
  }

  // ---------------------------------------------------------------- from text to records

  predicate Named(a: Assignment) {
    a.requestId != "" && a.task.fileId != 0
  }

  /** The first answer of success, with any spaces around it, makes one record: a success under the replica
      that was tried, whatever the container sends afterwards. */
  lemma SuccessIsRecorded(a: Assignment, tried: seq<string>, script: Script, rounds: seq<Round>, rest: seq<Incoming>)
    requires Follows(script, rounds, rest) && !script.host.setupFails && !script.host.timesFail && Named(a)
    requires 0 < |rounds| <= |tried| && NoSuccess(rounds, |rounds| - 1)
    requires rounds[|rounds| - 1].reply == "success." && tried[|rounds| - 1] != ""
    ensures Judge(a, tried, script) ==
      Verdict(Finished, Some(Report(a.task.fileId, tried[|rounds| - 1], "success")), [])
  {
    var k := |rounds| - 1;
    RoundsAreRefused(script, rounds, rest, k);
    InboxFollows(script, rounds, rest, k + 1);
    script.StopFromIs(0, k, |tried|);
  }

  /** When no replica is answered with success, a failure is recorded under the first one. */
  lemma RefusalIsFailure(a: Assignment, tried: seq<string>, script: Script, rounds: seq<Round>, rest: seq<Incoming>)
    requires Follows(script, rounds, rest) && !script.host.setupFails && !script.host.timesFail && Named(a)
    requires 0 < |rounds| == |tried| && NoSuccess(rounds, |rounds|) && tried[0] != ""
    ensures Judge(a, tried, script) == Verdict(Finished, None, [Report(a.task.fileId, tried[0], "failure")])
  {
    RoundsAreRefused(script, rounds, rest, |rounds|);
    script.StopFromIs(0, |tried|, |tried|);
  }

  /** When the container closes the connection instead of asking for work, the task ends the transformer
      without a record, and nothing more is sent. */
  lemma ClosingIsExit(settings: Settings, a: Assignment, tried: seq<string>, script: Script, rounds: seq<Round>,
                      skipped: seq<Incoming>, tail: seq<Incoming>)
    requires Follows(script, rounds, skipped + tail) && !script.host.setupFails
    requires |rounds| < |tried| && NoSuccess(rounds, |rounds|)
    requires AllPassedOver(skipped) && (tail == [] || tail[0] == Data(""))
    ensures Judge(a, tried, script) == Verdict(Exited, None, [])
    ensures Exchange(settings, a, tried, script, script.Tries(|tried|))
         == Exchange(settings, a, tried, script, |rounds|)
  {
    AttemptBehind(script, rounds, skipped, tail);
    StopsBehind(script, rounds, skipped + tail, |tried|);
    JudgeUnanswered(a, tried, script, |rounds|);
    UnansweredAttempt(settings, a, tried, script, |rounds|);
  }

  /** When something that is no text comes instead of a request for work, a failure is recorded under the
      first replica, and nothing more is sent. */
  lemma GarbleIsFailure(settings: Settings, a: Assignment, tried: seq<string>, script: Script, rounds: seq<Round>,
                        skipped: seq<Incoming>, tail: seq<Incoming>)
    requires Follows(script, rounds, skipped + tail) && !script.host.setupFails && Named(a)
    requires |rounds| < |tried| && NoSuccess(rounds, |rounds|) && tried[0] != ""
    requires AllPassedOver(skipped) && tail != [] && tail[0].Garbled?
    ensures Judge(a, tried, script) == Verdict(Finished, None, [Report(a.task.fileId, tried[0], "failure")])
    ensures Exchange(settings, a, tried, script, script.Tries(|tried|))
         == Exchange(settings, a, tried, script, |rounds|)
  {
    AttemptBehind(script, rounds, skipped, tail);
    StopsBehind(script, rounds, skipped + tail, |tried|);
    JudgeUnanswered(a, tried, script, |rounds|);
    UnansweredAttempt(settings, a, tried, script, |rounds|);
  }

  /** When sending the task or reading the statistics raises, a failure is recorded under the first replica
      whatever the container answers, and the answer is not confirmed. */
  lemma HazardIsFailure(settings: Settings, a: Assignment, tried: seq<string>, script: Script, rounds: seq<Round>,
                        last: Round, rest: seq<Incoming>)
    requires Follows(script, rounds, last.Items() + rest) && !script.host.setupFails && Named(a)
    requires |rounds| < |tried| && NoSuccess(rounds, |rounds|) && tried[0] != "" && last.Proper()
    requires script.HazardAt(|rounds|).SendFails? || script.HazardAt(|rounds|).StatsFail?
    ensures Judge(a, tried, script) == Verdict(Finished, None, [Report(a.task.fileId, tried[0], "failure")])
    ensures Exchange(settings, a, tried, script, script.Tries(|tried|))
         == Exchange(settings, a, tried, script, |rounds|)
            + if script.HazardAt(|rounds|).SendFails? then []
              else [Control(DocAt(settings, a, tried, script, |rounds|))]
  {
    AttemptHazard(script, rounds, last, rest);
    StopsBehind(script, rounds, last.Items() + rest, |tried|);
    JudgeUnanswered(a, tried, script, |rounds|);
    UnansweredAttempt(settings, a, tried, script, |rounds|);
  }

  lemma AttemptHazard(script: Script, rounds: seq<Round>, last: Round, rest: seq<Incoming>)
    requires Follows(script, rounds, last.Items() + rest) && last.Proper()
    requires script.HazardAt(|rounds|).SendFails? || script.HazardAt(|rounds|).StatsFail?
    ensures Synched(script.InboxAt(|rounds|)).0.Ready? && script.AttemptAt(|rounds|).Broken?
  {
    InboxFollows(script, rounds, last.Items() + rest, |rounds|);
    assert Transcript(rounds[|rounds|..]) + (last.Items() + rest) == last.Items() + rest;
    RoundMeetsHazard(last, rest, script.HazardAt(|rounds|));
  }

  lemma RoundMeetsHazard(round: Round, rest: seq<Incoming>, hazard: Hazard)
    requires round.Proper() && (hazard.SendFails? || hazard.StatsFail?)
    ensures Synched(round.Items() + rest).0.Ready? && Script.Meet(round.Items() + rest, hazard).0.Broken?
  {
    var tail := [Data("GeT" + round.ask), Data(round.before + round.reply + round.after)] + rest;
    assert round.Items() + rest == round.skipped + tail;
    assert ("GeT" + round.ask)[..3] == "GeT";
    SynchedBehind(round.skipped, tail);
  }

  /** An attempt that is not answered is the last one. */
  lemma StopsBehind(script: Script, rounds: seq<Round>, rest: seq<Incoming>, n: nat)
    requires Follows(script, rounds, rest) && |rounds| < n && NoSuccess(rounds, |rounds|)
    requires !script.AttemptAt(|rounds|).Answered?
    ensures script.Stop(n) == |rounds|
  {
    RoundsAreRefused(script, rounds, rest, |rounds|);
    script.StopFromIs(0, |rounds|, n);
  }

  /** The verdict when the last attempt, the one after `k` others, is not answered. */
  lemma JudgeUnanswered(a: Assignment, tried: seq<string>, script: Script, k: nat)
    requires k == script.Stop(|tried|) < |tried| && !script.AttemptAt(k).Answered? && !script.host.setupFails
    ensures script.Tries(|tried|) == k + 1
    ensures script.AttemptAt(k).Gone? ==> Judge(a, tried, script) == Verdict(Exited, None, [])
    ensures script.AttemptAt(k).Broken? && Named(a) && tried[0] != "" ==>
      Judge(a, tried, script) == Verdict(Finished, None, [Report(a.task.fileId, tried[0], "failure")])
  {
  }

  lemma UnansweredAttempt(settings: Settings, a: Assignment, tried: seq<string>, script: Script, k: nat)
    requires k < |tried| && !script.AttemptAt(k).Answered?
    ensures !Synched(script.InboxAt(k)).0.Ready? ==>
      Exchange(settings, a, tried, script, k + 1) == Exchange(settings, a, tried, script, k)
    ensures Synched(script.InboxAt(k)).0.Ready? ==>
      Exchange(settings, a, tried, script, k + 1) == Exchange(settings, a, tried, script, k)
      + if script.HazardAt(k).SendFails? then [] else [Control(DocAt(settings, a, tried, script, k))]
  {
    ExchangeNext(settings, a, tried, script, k);
    assert Said(settings, a, tried, script, k) + Owed(a, tried, script, k)
        == if !Synched(script.InboxAt(k)).0.Ready? || script.HazardAt(k).SendFails? then []
           else [Control(DocAt(settings, a, tried, script, k))];
  }

  /** When confirming an answer raises, no further replica is tried, no confirmation is sent and a failure is
      recorded under the first replica, besides the success if it was one. */
  lemma UnconfirmedIsFailure(settings: Settings, a: Assignment, tried: seq<string>, script: Script, rounds: seq<Round>,
                             last: Round, rest: seq<Incoming>)
    requires Follows(script, rounds, last.Items() + rest) && !script.host.setupFails && Named(a)
    requires |rounds| < |tried| && NoSuccess(rounds, |rounds|) && tried[0] != "" && last.Proper()
    requires script.HazardAt(|rounds|).ConfirmFails? && tried[|rounds|] != ""
    ensures script.Tries(|tried|) == |rounds| + 1
    ensures Judge(a, tried, script) == Verdict(Finished,
      if last.reply == "success." then Some(Report(a.task.fileId, tried[|rounds|], "success")) else None,
      [Report(a.task.fileId, tried[0], "failure")])
    ensures Exchange(settings, a, tried, script, |rounds| + 1)
         == Exchange(settings, a, tried, script, |rounds|) + [Control(DocAt(settings, a, tried, script, |rounds|))]
  {
    AnsweredBehind(script, rounds, last, rest);
    StopsUnconfirmed(script, rounds, last.Items() + rest, |tried|);
    JudgeUnconfirmed(a, tried, script, |rounds|);
    UnconfirmedAttempt(settings, a, tried, script, |rounds|);
  }

  lemma StopsUnconfirmed(script: Script, rounds: seq<Round>, rest: seq<Incoming>, n: nat)
    requires Follows(script, rounds, rest) && |rounds| < n && NoSuccess(rounds, |rounds|)
    requires script.HazardAt(|rounds|).ConfirmFails?
    ensures script.Stop(n) == |rounds|
  {
    RoundsAreRefused(script, rounds, rest, |rounds|);
    script.StopFromIs(0, |rounds|, n);
  }

  lemma JudgeUnconfirmed(a: Assignment, tried: seq<string>, script: Script, k: nat)
    requires k == script.Stop(|tried|) < |tried| && script.AttemptAt(k).Answered? && !script.host.setupFails
    requires Named(a) && script.HazardAt(k).ConfirmFails? && tried[0] != "" && tried[k] != ""
    ensures script.Tries(|tried|) == k + 1
    ensures Judge(a, tried, script) == Verdict(Finished,
      if script.AttemptAt(k).reply == "success." then Some(Report(a.task.fileId, tried[k], "success")) else None,
      [Report(a.task.fileId, tried[0], "failure")])
  {
  }

  lemma UnconfirmedAttempt(settings: Settings, a: Assignment, tried: seq<string>, script: Script, k: nat)
    requires k < |tried| && script.AttemptAt(k).Answered? && script.HazardAt(k).ConfirmFails?
    ensures Exchange(settings, a, tried, script, k + 1)
         == Exchange(settings, a, tried, script, k) + [Control(DocAt(settings, a, tried, script, k))]
  {
    ExchangeNext(settings, a, tried, script, k);
    AnsweredRound(settings, a, tried, script, k);
    assert Owed(a, tried, script, k) == [];
  }

  lemma AnsweredBehind(script: Script, rounds: seq<Round>, last: Round, rest: seq<Incoming>)
    requires Follows(script, rounds, last.Items() + rest) && last.Proper()
    requires script.HazardAt(|rounds|).ConfirmFails?
    ensures script.AttemptAt(|rounds|) == Answered(last.reply)
  {
    InboxFollows(script, rounds, last.Items() + rest, |rounds|);
    assert Transcript(rounds[|rounds|..]) + (last.Items() + rest) == last.Items() + rest;
    RoundIsAnswered(last, rest, script.HazardAt(|rounds|));
  }

  lemma AttemptBehind(script: Script, rounds: seq<Round>, skipped: seq<Incoming>, tail: seq<Incoming>)
    requires Follows(script, rounds, skipped + tail) && AllPassedOver(skipped)
    ensures tail == [] || tail[0] == Data("") ==>
      script.AttemptAt(|rounds|).Gone? && !Synched(script.InboxAt(|rounds|)).0.Ready?
    ensures tail != [] && tail[0].Garbled? ==>
      script.AttemptAt(|rounds|).Broken? && !Synched(script.InboxAt(|rounds|)).0.Ready?
  {
    InboxFollows(script, rounds, skipped + tail, |rounds|);
    assert Transcript(rounds[|rounds|..]) + (skipped + tail) == skipped + tail;
    SynchedBehind(skipped, tail);
  }

  /** What the science container sends for a file that it transformed: lines that end. */
  lemma PlainSuccess(a: Assignment, path: string, host: Host, rest: seq<Incoming>)
    requires Named(a) && path != "" && host == Host(false, [], false)
    ensures Judge(a, [path], Script([Data("GeT\n"), Data("success.\n")] + rest, host))
         == Verdict(Finished, Some(Report(a.task.fileId, path, "success")), [])
    ensures Judge(a, [path], Script([Data("GeT\n"), Data("failure.\n")] + rest, host))
         == Verdict(Finished, None, [Report(a.task.fileId, path, "failure")])
  {
    var good, bad := Round([], "\n", "", "success.", "\n"), Round([], "\n", "", "failure.", "\n");
    OneRound(good, Data("GeT\n"), Data("success.\n"));
    OneRound(bad, Data("GeT\n"), Data("failure.\n"));
    SuccessIsRecorded(a, [path], Script(good.Items() + rest, host), [good], rest);
    RefusalIsFailure(a, [path], Script(bad.Items() + rest, host), [bad], rest);
  }

  lemma OneRound(round: Round, ask: Incoming, answer: Incoming)
    requires round.skipped == [] && ask == Data("GeT" + round.ask)
    requires answer == Data(round.before + round.reply + round.after)
    ensures round.Items() == [ask, answer] && Transcript([round]) == round.Items()
  {
    assert [round][1..] == [];
  }

  // ---------------------------------------------------------------- what the container is told

  /** The path with colons for slashes, and the extension that the format asks for. */
  lemma OutputByParts(settings: Settings, a: Assignment, parts: seq<string>)
    requires forall i :: 0 <= i < |parts| ==> '/' !in parts[i]
    requires |Join(parts, ':')| <= 247
    ensures var parquet := !settings.convertRootToParquet && a.format == "parquet";
      OutputFor(settings, a, Join(parts, '/')) == Location(
        if a.destination == "volume" then settings.posixPath
        else settings.sharedDir + "/" + a.requestId + "/scratch",
        Join(parts, ':') + if parquet then ".parquet" else "")
  {
    ColonsForSlashes(parts);
  }

  function Flat(path: string): string {
    Bags.Map((c: char) => if c == '/' then ':' else c, path)
  }

  lemma {:induction false} ColonsForSlashes(parts: seq<string>)
    requires forall i :: 0 <= i < |parts| ==> '/' !in parts[i]
    ensures Flat(Join(parts, '/')) == Join(parts, ':')
  {
    if |parts| > 0 {
      assert Flat(parts[0]) == parts[0];
    }
    if |parts| > 1 {
      ColonsForSlashes(parts[1..]);
      assert Flat(parts[0] + ['/'] + Join(parts[1..], '/')) == parts[0] + [':'] + Flat(Join(parts[1..], '/'));
    }
  }

  /** The container is told each replica with the answer to the one before, and the format that it has to
      write: `root` if the sidecar converts afterwards, else the one that was asked for. */
  lemma DocSays(settings: Settings, a: Assignment, tried: seq<string>, script: Script, rounds: seq<Round>,
                rest: seq<Incoming>, k: nat)
    requires Follows(script, rounds, rest) && k <= |rounds| && k < |tried|
    ensures var doc := DocAt(settings, a, tried, script, k);
      && doc.filePath == tried[k] && doc.output == OutputFor(settings, a, tried[k])
      && doc.status == (if k == 0 then "unknown" else rounds[k - 1].reply)
      && doc.format == if settings.convertRootToParquet then "root" else a.format
  {
    InboxFollows(script, rounds, rest, k);
  }

  // ---------------------------------------------------------------- where records and files go

  /** With an object store, a success waits for the uploader together with the file that the container was
      told to write, and failures are reported at once; without one all is reported at once. */
  lemma WhereRecordsGo(settings: Settings, a: Assignment, tried: seq<string>, script: Script)
    ensures var v, stop := Judge(a, tried, script), script.Stop(|tried|);
      var reported, queued := ReportedBy(settings, v), QueuedBy(settings, a, tried, script);
      && (v.success.Some? ==> stop < |tried|)
      && (settings.objectStore ==> reported == v.failures)
      && (settings.objectStore && v.success.Some? ==>
            queued == [Item(DocAt(settings, a, tried, script, stop).output, v.success.value)])
      && (settings.objectStore && v.success.None? ==> queued == [])
      && (!settings.objectStore ==>
            queued == [] && reported == (if v.success.Some? then [v.success.value] else []) + v.failures)
  {
  }
}
