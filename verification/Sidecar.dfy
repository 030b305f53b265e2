/** The transformer sidecar: the handshake with the science container (science_container_command.py)
    and the transformation of one file, replica by replica (transformer.py). */
module Sidecar {
  import opened Text
  import opened Bags
  import opened Models
  import opened Replicas

  // ---------------------------------------------------------------- output names

  type Digest40 = d: string | |d| == 40 witness seq(40, _ => '0')

  const MAX_PATH_LEN := 255

  /** Keeps a name within the limit: a hash stands for the leading characters of a long one. */
  function HashPath(sha1: string -> Digest40, name: string): (r: string)
    ensures |r| <= MAX_PATH_LEN
    ensures |name| <= MAX_PATH_LEN ==> r == name
    ensures |name| > MAX_PATH_LEN ==>
      |r| == MAX_PATH_LEN && r[..41] == "_" + sha1(name) && r[41..] == name[|name| - 214..]
  {
    if |name| > MAX_PATH_LEN then
      var digest := sha1(name);
      "_" + digest + name[|name| - (MAX_PATH_LEN - |digest| - 1)..]
    else name
  }

  datatype Location = Location(dir: string, name: string)

  datatype Settings = Settings(
    cachePrefix: string,
    hash: string -> nat,
    sha1: string -> Digest40,
    convertRootToParquet: bool,
    posixPath: string,
    sharedDir: string,
    objectStore: bool)

  /** A task as the transformer receives it, for one request. */
  datatype Assignment = Assignment(requestId: string, task: Task, destination: string, format: string)

  function FormatFor(settings: Settings, a: Assignment): string {
    if settings.convertRootToParquet then "root" else a.format
  }

  function OutputFor(settings: Settings, a: Assignment, path: string): Location {
    var flat := Map((c: char) => if c == '/' then ':' else c, path);
    var extension := if FormatFor(settings, a) == "parquet" then ".parquet" else "";
    Location(if a.destination == "volume" then settings.posixPath
             else settings.sharedDir + "/" + a.requestId + "/scratch",
             HashPath(settings.sha1, flat + extension))
  }

  // ---------------------------------------------------------------- the handshake

  /** What a receive delivers: text, or bytes or an error that raise an exception. Empty text means
      that the container closed the connection; so does receiving after the last item. */
  datatype Incoming = Data(text: string) | Garbled

  datatype ControlDoc = ControlDoc(filePath: string, output: Location, format: string, status: string)

  datatype Outgoing = Control(doc: ControlDoc) | Confirmed

  datatype Contact = Ready | Closed | Raised

  function Synched(inbox: seq<Incoming>): (Contact, seq<Incoming>) {
    if inbox == [] then (Closed, [])
    else
      match inbox[0]
      case Garbled => (Raised, inbox[1..])
      case Data(text) =>
        if text == "" then (Closed, inbox[1..])
        else if StartsWith(text, "GeT") then (Ready, inbox[1..])
        else Synched(inbox[1..])
  }

  predicate Skipped(item: Incoming) {
    item.Data? && item.text != "" && !StartsWith(item.text, "GeT")
  }

  /** The first item that is not skipped decides: a request for work makes the sidecar ready, and
      nothing behind it is consumed; when all are skipped the connection closes. */
  lemma {:induction false} SynchedByFirst(inbox: seq<Incoming>, k: nat)
    requires k <= |inbox| && forall i :: 0 <= i < k ==> Skipped(inbox[i])
    requires k < |inbox| ==> !Skipped(inbox[k])
    ensures Synched(inbox) ==
      if k == |inbox| then (Closed, [])
      else if inbox[k].Garbled? then (Raised, inbox[k + 1..])
      else if StartsWith(inbox[k].text, "GeT") then (Ready, inbox[k + 1..])
      else (Closed, inbox[k + 1..])
  {
    if k > 0 {
      assert forall i :: 0 <= i < k - 1 ==> inbox[1..][i] == inbox[i + 1];
      SynchedByFirst(inbox[1..], k - 1);
    }
  }

  /** A closed connection reads as an empty answer. */
  function Awaited(inbox: seq<Incoming>): (Option<string>, seq<Incoming>) {
    if inbox == [] then (Some(""), [])
    else
      match inbox[0]
      case Garbled => (None, inbox[1..])
      case Data(text) => (Some(Strip(text)), inbox[1..])
  }

  class ScienceContainer {
    var inbox: seq<Incoming>
    var outbox: seq<Outgoing>

    constructor (inbox: seq<Incoming>)
      ensures this.inbox == inbox && outbox == []
    {
      this.inbox := inbox;
      outbox := [];
    }

    method Receive() returns (item: Incoming)
      modifies this`inbox
      ensures old(inbox) == [] ==> item == Data("") && inbox == []
      ensures old(inbox) != [] ==> item == old(inbox)[0] && inbox == old(inbox)[1..]
    {
      if inbox == [] {
        return Data("");
      }
      item, inbox := inbox[0], inbox[1..];
    }

    /** Waits for the container to ask for work. */
    method Synch() returns (contact: Contact)
      modifies this`inbox
      ensures (contact, inbox) == Synched(old(inbox))
    {
      while true
        invariant Synched(inbox) == Synched(old(inbox))
        decreases |inbox|
      {
        var item := Receive();
        if item.Garbled? {
          return Raised;
        } else if item.text == "" {
          return Closed;
        } else if StartsWith(item.text, "GeT") {
          return Ready;
        }
      }
    }

    method Send(doc: ControlDoc)
      modifies this`outbox
      ensures outbox == old(outbox) + [Control(doc)]
    {
      outbox := outbox + [Control(doc)];
    }

    method AwaitResponse() returns (response: Option<string>)
      modifies this`inbox
      ensures (response, inbox) == Awaited(old(inbox))
    {
      var item := Receive();
      if item.Garbled? {
        return None;
      }
      return Some(Strip(item.text));
    }

    method Confirm()
      modifies this`outbox
      ensures outbox == old(outbox) + [Confirmed]
    {
      outbox := outbox + [Confirmed];
    }
  }

  // ---------------------------------------------------------------- what the container and the host do

  /** Where, besides in receiving, an attempt may raise an exception. */
  datatype Hazard = Calm | SendFails | StatsFail | ConfirmFails

  /** What the host does to one task: making the directories or reading the process times may raise
      before the first attempt, and reading the process times again may raise when all is done. */
  datatype Host = Host(setupFails: bool, hazards: seq<Hazard>, timesFail: bool) {
    function HazardAt(k: nat): Hazard {
      if k < |hazards| then hazards[k] else Calm
    }
  }

  datatype Attempt = Gone | Broken | Answered(reply: string) {
    predicate Succeeded() { Answered? && reply == "success." }

    /** The container answered anything but success, and was told that the answer arrived. */
    predicate Refused(hazard: Hazard) { Answered? && !Succeeded() && !hazard.ConfirmFails? }
  }

  /** Everything that the environment decides about the transformation of one file. */
  datatype Script = Script(inbox: seq<Incoming>, host: Host) {
    function HazardAt(k: nat): Hazard { host.HazardAt(k) }

    /** What an attempt meets, and what it leaves to be received. */
    static function Meet(inbox: seq<Incoming>, hazard: Hazard): (Attempt, seq<Incoming>) {
      var (contact, rest) := Synched(inbox);
      match contact
      case Closed => (Gone, rest)
      case Raised => (Broken, rest)
      case Ready =>
        if hazard.SendFails? then (Broken, rest)
        else
          var (response, rest') := Awaited(rest);
          if response.None? || hazard.StatsFail? then (Broken, rest') else (Answered(response.value), rest')
    }

    /** What is left to be received before attempt `k`. */
    function InboxAt(k: nat): seq<Incoming> {
      if k == 0 then inbox else Meet(InboxAt(k - 1), HazardAt(k - 1)).1
    }

    function AttemptAt(k: nat): Attempt {
      Meet(InboxAt(k), HazardAt(k)).0
    }

    /** Attempt `k` ended with an answer other than success, and the next replica is tried. */
    predicate Refused(k: nat) {
      AttemptAt(k).Refused(HazardAt(k))
    }

    predicate Succeeded(k: nat) {
      AttemptAt(k).Succeeded()
    }

    /** The first attempt, from `k` on, after which no further replica is tried. */
    function StopFrom(k: nat, n: nat): (stop: nat)
      requires k <= n
      ensures k <= stop <= n
      decreases n - k
    {
      if k < n && Refused(k) then StopFrom(k + 1, n) else k
    }

    function Stop(n: nat): nat { StopFrom(0, n) }

    /** How many of `n` replicas are tried. */
    function Tries(n: nat): (tries: nat)
      ensures tries <= n
    {
      if host.setupFails then 0 else if Stop(n) < n then Stop(n) + 1 else n
    }

    /** Every attempt before the last one is refused, and the last one is not. */
    lemma {:induction false} StopFromStops(k: nat, n: nat, i: nat)
      requires k <= n
      ensures k <= i < StopFrom(k, n) ==> Refused(i)
      ensures i == StopFrom(k, n) < n ==> !Refused(i)
      decreases n - k
    {
      if k < n && Refused(k) {
        StopFromStops(k + 1, n, i);
      }
    }

    lemma {:induction false} StopFromIs(k: nat, stop: nat, n: nat)
      requires k <= stop <= n
      requires forall i :: k <= i < stop ==> Refused(i)
      requires stop < n ==> !Refused(stop)
      ensures StopFrom(k, n) == stop
      decreases stop - k
    {
      if k < stop {
        StopFromIs(k + 1, stop, n);
      }
    }

    function StatusBefore(k: nat): string {
      if k == 0 then "unknown"
      else
        match AttemptAt(k - 1)
        case Answered(reply) => reply
        case _ => ""
    }
  }

  // ---------------------------------------------------------------- records

  /** A record is refused when one of its fields is empty or zero. */
  function MakeRecord(a: Assignment, path: string, status: string): Option<Report> {
    if a.requestId != "" && path != "" && a.task.fileId != 0 && status != ""
    then Some(Report(a.task.fileId, path, status)) else None
  }

  datatype Exit = Finished | Exited | Uncaught

  /** How the transformation ended and which records it made. */
  datatype Verdict = Verdict(exit: Exit, success: Option<Report>, failures: seq<Report>) {
    function Records(): seq<Report> {
      (if success.Some? then [success.value] else []) + failures
    }
  }

  /** A failure is recorded under the first replica, and once more if something raises after that. */
  function Failing(a: Assignment, tried: seq<string>, success: Option<Report>, again: bool): Verdict
    requires tried != []
  {
    match MakeRecord(a, tried[0], "failure")
    case Some(rec) => Verdict(Finished, success, if again then [rec, rec] else [rec])
    case None => Verdict(Uncaught, success, [])
  }

  function Judge(a: Assignment, tried: seq<string>, script: Script): Verdict {
    if script.host.setupFails || tried == [] then Verdict(Uncaught, None, [])
    else
      var k := script.Stop(|tried|);
      if k == |tried| then Failing(a, tried, None, script.host.timesFail)
      else if script.AttemptAt(k).Gone? then Verdict(Exited, None, [])
      else if script.Succeeded(k) then
        var rec := MakeRecord(a, tried[k], "success");
        if rec.None? || script.HazardAt(k).ConfirmFails? || script.host.timesFail then Failing(a, tried, rec, false)
        else Verdict(Finished, rec, [])
      else Failing(a, tried, None, false)
  }

  function DocAt(settings: Settings, a: Assignment, tried: seq<string>, script: Script, k: nat): ControlDoc
    requires k < |tried|
  {
    ControlDoc(tried[k], OutputFor(settings, a, tried[k]), FormatFor(settings, a), script.StatusBefore(k))
  }

  /** What the container is sent within an attempt: the task once it asked for work, and a confirmation of
      any answer but success. */
  function Says(inbox: seq<Incoming>, hazard: Hazard, doc: ControlDoc): seq<Outgoing> {
    (if Synched(inbox).0.Ready? && !hazard.SendFails? then [Control(doc)] else [])
    + if Script.Meet(inbox, hazard).0.Refused(hazard) then [Confirmed] else []
  }

  function Said(settings: Settings, a: Assignment, tried: seq<string>, script: Script, k: nat): seq<Outgoing>
    requires k < |tried|
  {
    Says(script.InboxAt(k), script.HazardAt(k), DocAt(settings, a, tried, script, k))
  }

  /** The confirmation of attempt `k`, if it succeeded: it comes after the success was delivered. */
  function Owed(a: Assignment, tried: seq<string>, script: Script, k: nat): seq<Outgoing> {
    if k < |tried| && script.Succeeded(k) && !script.HazardAt(k).ConfirmFails?
       && MakeRecord(a, tried[k], "success").Some?
    then [Confirmed] else []
  }

  function SentIn(settings: Settings, a: Assignment, tried: seq<string>, script: Script): nat -> seq<Outgoing> {
    (k: nat) => if k < |tried| then Said(settings, a, tried, script, k) + Owed(a, tried, script, k) else []
  }

  function Rounds(round: nat -> seq<Outgoing>, k: nat): seq<Outgoing> {
    if k == 0 then [] else Rounds(round, k - 1) + round(k - 1)
  }

  /** What the container is sent over `k` attempts. */
  function Exchange(settings: Settings, a: Assignment, tried: seq<string>, script: Script, k: nat): seq<Outgoing> {
    Rounds(SentIn(settings, a, tried, script), k)
  }

  lemma ExchangeNext(settings: Settings, a: Assignment, tried: seq<string>, script: Script, k: nat)
    requires k < |tried|
    ensures Exchange(settings, a, tried, script, k + 1) == Exchange(settings, a, tried, script, k)
      + (Said(settings, a, tried, script, k) + Owed(a, tried, script, k))
  {
    assert SentIn(settings, a, tried, script)(k) == Said(settings, a, tried, script, k) + Owed(a, tried, script, k);
  }

  lemma ExchangeGrows(settings: Settings, a: Assignment, tried: seq<string>, script: Script, k: nat,
                      sent: seq<Outgoing>)
    requires k < |tried|
    ensures sent + Exchange(settings, a, tried, script, k) + Said(settings, a, tried, script, k)
              + Owed(a, tried, script, k)
         == sent + Exchange(settings, a, tried, script, k + 1)
  {
    ExchangeNext(settings, a, tried, script, k);
    Regroup(sent, Exchange(settings, a, tried, script, k), Said(settings, a, tried, script, k),
      Owed(a, tried, script, k));
  }

  lemma Regroup(a: seq<Outgoing>, b: seq<Outgoing>, c: seq<Outgoing>, d: seq<Outgoing>)
    ensures a + b + c + d == a + (b + (c + d))
  {
  }

  // ---------------------------------------------------------------- what is promised

  /** A failure of the task can be recorded: that takes a name for the first replica. */
  predicate CanFail(a: Assignment, tried: seq<string>) {
    a.requestId != "" && a.task.fileId != 0 && tried != [] && tried[0] != ""
  }

  /** The last attempt found the container gone. */
  predicate ContainerGone(tried: seq<string>, script: Script) {
    var k := script.Stop(|tried|);
    k < |tried| && script.AttemptAt(k).Gone?
  }

  /** The last attempt was answered with success, and that can be recorded. */
  predicate Delivers(a: Assignment, tried: seq<string>, script: Script) {
    var k := script.Stop(|tried|);
    k < |tried| && script.Succeeded(k) && a.requestId != "" && a.task.fileId != 0 && tried[k] != ""
  }

  /** Something raises after the task was recorded: confirming a success, or reading the process times
      after a success or after all replicas were refused. */
  predicate RaisesLate(a: Assignment, tried: seq<string>, script: Script) {
    var k := script.Stop(|tried|);
    || (Delivers(a, tried, script) && (script.HazardAt(k).ConfirmFails? || script.host.timesFail))
    || (k == |tried| && script.host.timesFail)
  }

  /** How many records a task makes, for all tasks and whatever the environment does. */
  lemma RecordsPerTask(a: Assignment, tried: seq<string>, script: Script)
    ensures var v, setup := Judge(a, tried, script), !script.host.setupFails;
      && (|v.Records()| == 0 <==>
            !setup || ContainerGone(tried, script) || (!CanFail(a, tried) && !Delivers(a, tried, script)))
      && (|v.Records()| == 2 <==> setup && CanFail(a, tried) && RaisesLate(a, tried, script))
      && |v.Records()| <= 2
      && (v.exit.Exited? <==> setup && ContainerGone(tried, script))
      && (v.exit.Uncaught? <==>
            !setup || (!ContainerGone(tried, script) && !CanFail(a, tried)
                       && (!Delivers(a, tried, script) || RaisesLate(a, tried, script))))
      && (forall rec :: rec in v.Records() ==> rec.fileId == a.task.fileId)
      && (v.success.Some? ==> v.success.value.IsSuccess()) && (forall rec :: rec in v.failures ==> !rec.IsSuccess())
  {
  }

  /** When nothing raises, the one record is a success that names the first replica in tried order
      that was answered with success, and a failure that names the first replica if there is none;
      replicas behind the first success do not matter. */
  lemma QuietTask(a: Assignment, tried: seq<string>, script: Script, first: nat)
    requires a.requestId != "" && a.task.fileId != 0 && tried != []
    requires !script.host.setupFails && !script.host.timesFail
    requires forall k :: 0 <= k < |tried| && k <= first ==>
      script.AttemptAt(k).Answered? && !script.HazardAt(k).ConfirmFails?
    requires first <= |tried| && (forall k :: 0 <= k < first ==> !script.Succeeded(k))
    requires first < |tried| ==> script.Succeeded(first)
    ensures Judge(a, tried, script) ==
      if first < |tried| && tried[first] != ""
      then Verdict(Finished, Some(Report(a.task.fileId, tried[first], "success")), [])
      else if tried[0] != "" then Verdict(Finished, None, [Report(a.task.fileId, tried[0], "failure")])
      else Verdict(Uncaught, None, [])
  {
    forall k | 0 <= k < first ensures script.Refused(k) {
      assert !script.Succeeded(k);
    }
    script.StopFromIs(0, first, |tried|);
  }

  /** Whatever is raised, a success is recorded exactly for the first replica answered with success
      before any exception, if it has a name. */
  lemma SuccessNamesFirst(a: Assignment, tried: seq<string>, script: Script, k: nat)
    requires a.requestId != "" && a.task.fileId != 0 && !script.host.setupFails && k < |tried|
    ensures Judge(a, tried, script).success == Some(Report(a.task.fileId, tried[k], "success"))
       <== tried[k] != "" && script.Succeeded(k) && forall i :: 0 <= i < k ==> script.Refused(i)
    ensures Judge(a, tried, script).success.Some? ==>
      var stop := script.Stop(|tried|);
      stop < |tried| && tried[stop] != "" && script.Succeeded(stop)
      && (forall i :: 0 <= i < stop ==> script.Refused(i))
      && Judge(a, tried, script).success == Some(Report(a.task.fileId, tried[stop], "success"))
  {
    var stop := script.Stop(|tried|);
    forall i | 0 <= i < stop ensures script.Refused(i) {
      script.StopFromStops(0, |tried|, i);
    }
    if script.Succeeded(k) && forall i :: 0 <= i < k ==> script.Refused(i) {
      script.StopFromIs(0, k, |tried|);
    }
  }

  /** What the container is told of the first `k` replicas. */
  function DocsTo(settings: Settings, a: Assignment, tried: seq<string>, script: Script, k: nat): seq<ControlDoc>
    requires k <= |tried|
  {
    seq(k, i requires 0 <= i < k => DocAt(settings, a, tried, script, i))
  }

  /** Each document is sent once, in order, and followed by a confirmation. */
  predicate Alternates(sent: seq<Outgoing>, docs: seq<ControlDoc>) {
    && |sent| == 2 * |docs|
    && forall i :: 0 <= i < |docs| ==> sent[2 * i] == Control(docs[i]) && sent[2 * i + 1] == Confirmed
  }

  lemma {:induction false} RoundsAlternate(round: nat -> seq<Outgoing>, docs: seq<ControlDoc>, k: nat)
    requires k <= |docs| && forall i :: 0 <= i < k ==> round(i) == [Control(docs[i]), Confirmed]
    ensures Alternates(Rounds(round, k), docs[..k])
  {
    if k > 0 {
      RoundsAlternate(round, docs, k - 1);
      assert docs[..k] == docs[..k - 1] + [docs[k - 1]];
    }
  }

  lemma AnsweredRound(settings: Settings, a: Assignment, tried: seq<string>, script: Script, k: nat)
    requires k < |tried| && script.AttemptAt(k).Answered?
    ensures Said(settings, a, tried, script, k) + Owed(a, tried, script, k) ==
      [Control(DocAt(settings, a, tried, script, k))]
      + if script.Refused(k) then [Confirmed] else Owed(a, tried, script, k)
  {
  }

  /** Over attempts that are refused, the container is told of each replica once, in order, and then
      that its answer arrived. */
  lemma RefusalsAlternate(settings: Settings, a: Assignment, tried: seq<string>, script: Script, k: nat)
    requires k <= |tried| && forall i :: 0 <= i < k ==> script.Refused(i)
    ensures Alternates(Exchange(settings, a, tried, script, k), DocsTo(settings, a, tried, script, k))
  {
    var round, docs := SentIn(settings, a, tried, script), DocsTo(settings, a, tried, script, k);
    forall i | 0 <= i < k ensures round(i) == [Control(docs[i]), Confirmed] {
      assert script.Refused(i);
      AnsweredRound(settings, a, tried, script, i);
    }
    RoundsAlternate(round, docs, k);
    assert docs[..k] == docs;
  }

  lemma TailOf(front: seq<Outgoing>, item: Outgoing, rest: seq<Outgoing>)
    ensures (front + ([item] + rest))[|front|] == item && (front + ([item] + rest))[|front| + 1..] == rest
  {
  }

  lemma LastRound(settings: Settings, a: Assignment, tried: seq<string>, script: Script, k: nat)
    requires k < |tried| && script.Succeeded(k)
    ensures var front, sent := Exchange(settings, a, tried, script, k), Exchange(settings, a, tried, script, k + 1);
      && |front| < |sent| && sent[|front|] == Control(DocAt(settings, a, tried, script, k))
      && sent[|front| + 1..] == Owed(a, tried, script, k)
  {
    ExchangeNext(settings, a, tried, script, k);
    AnsweredRound(settings, a, tried, script, k);
    TailOf(Exchange(settings, a, tried, script, k), Control(DocAt(settings, a, tried, script, k)),
      Owed(a, tried, script, k));
  }

  lemma RefusalsSize(settings: Settings, a: Assignment, tried: seq<string>, script: Script, k: nat)
    requires k <= |tried| && forall i :: 0 <= i < k ==> script.Refused(i)
    ensures |Exchange(settings, a, tried, script, k)| == 2 * k
  {
    RefusalsAlternate(settings, a, tried, script, k);
  }

  /** The first success is the last attempt, and after it nothing is sent but its confirmation, whether
      or not confirming raises. */
  lemma NothingAfterSuccess(settings: Settings, a: Assignment, tried: seq<string>, script: Script, k: nat)
    requires k < |tried| && script.Succeeded(k) && !script.host.setupFails
    requires forall i :: 0 <= i < k ==> script.Refused(i)
    ensures script.Tries(|tried|) == k + 1
    ensures var sent := Exchange(settings, a, tried, script, k + 1);
      && 2 * k < |sent| && sent[2 * k] == Control(DocAt(settings, a, tried, script, k))
      && sent[2 * k + 1..] == Owed(a, tried, script, k)
  {
    script.StopFromIs(0, k, |tried|);
    RefusalsSize(settings, a, tried, script, k);
    LastRound(settings, a, tried, script, k);
  }

  // ---------------------------------------------------------------- the upload queue and the worker

  /** An item of the upload queue; an item without a source path is the poison pill. */
  datatype WorkItem = Item(source: Location, rec: Report) | Pill

  function QueuedBy(settings: Settings, a: Assignment, tried: seq<string>, script: Script): seq<WorkItem> {
    var v, k := Judge(a, tried, script), script.Stop(|tried|);
    if settings.objectStore && v.success.Some? && k < |tried|
    then [Item(OutputFor(settings, a, tried[k]), v.success.value)] else []
  }

  function ReportedBy(settings: Settings, v: Verdict): seq<Report> {
    if settings.objectStore then v.failures else v.Records()
  }

  class Worker {
    const settings: Settings
    const container: ScienceContainer
    var uploadQueue: seq<WorkItem>
    var reported: seq<Report>

    constructor (settings: Settings, container: ScienceContainer)
      ensures this.settings == settings && this.container == container
      ensures uploadQueue == [] && reported == []
    {
      this.settings, this.container := settings, container;
      uploadQueue, reported := [], [];
    }

    /** Reports the failure of the task, unless even its record cannot be made. */
    method ReportFailure(a: Assignment, tried: seq<string>) returns (exit: Exit)
      requires tried != []
      modifies this`reported
      ensures var v := Failing(a, tried, None, false);
        exit == v.exit && reported == old(reported) + v.failures
    {
      var rec := MakeRecord(a, tried[0], "failure");
      if rec.None? {
        return Uncaught;
      }
      reported := reported + [rec.value];
      return Finished;
    }

    /** One attempt, up to and including the answer of the container. */
    method TryReplica(doc: ControlDoc, hazard: Hazard) returns (attempt: Attempt)
      modifies container
      ensures (attempt, container.inbox) == Script.Meet(old(container.inbox), hazard)
      ensures container.outbox == old(container.outbox) +
        if Synched(old(container.inbox)).0.Ready? && !hazard.SendFails? then [Control(doc)] else []
    {
      var contact := container.Synch();
      if contact.Closed? {
        return Gone;
      }
      if contact.Raised? || hazard.SendFails? {
        return Broken;
      }
      container.Send(doc);
      var response := container.AwaitResponse();
      if response.None? || hazard.StatsFail? {
        return Broken;
      }
      return Answered(response.value);
    }

    /** One attempt; an answer other than success is confirmed here. */
    method TryAndConfirm(doc: ControlDoc, hazard: Hazard) returns (attempt: Attempt, refused: bool)
      modifies container
      ensures (attempt, container.inbox) == Script.Meet(old(container.inbox), hazard)
      ensures refused == attempt.Refused(hazard)
      ensures container.outbox == old(container.outbox) + Says(old(container.inbox), hazard, doc)
    {
      attempt := TryReplica(doc, hazard);
      refused := attempt.Refused(hazard);
      if refused {
        container.Confirm();
      }
    }

    /** Delivers a success: to the uploader if results go to the object store, else at once. */
    method DeliverSuccess(output: Location, rec: Report)
      modifies this
      ensures uploadQueue == old(uploadQueue) + if settings.objectStore then [Item(output, rec)] else []
      ensures reported == old(reported) + if settings.objectStore then [] else [rec]
    {
      if settings.objectStore {
        uploadQueue := uploadQueue + [Item(output, rec)];
      } else {
        reported := reported + [rec];
      }
    }

    /** Replicas before `k` were tried: what is left to be received is what the script has for attempt
        `k`, and of what the container is sent over them only `owed` is still to come. */
    ghost predicate Reached(a: Assignment, tried: seq<string>, script: Script, sent: seq<Outgoing>, k: nat,
                          owed: seq<Outgoing>)
      reads container
    {
      && k <= |tried| && container.inbox == script.InboxAt(k)
      && container.outbox + owed == sent + Exchange(settings, a, tried, script, k)
    }

    /** The next replica: what it meets is what the script has for attempt `k`. A success is
        confirmed later. */
    method TryNext(a: Assignment, tried: seq<string>, k: nat, status: string, host: Host,
                   ghost script: Script, ghost sent: seq<Outgoing>)
      returns (attempt: Attempt, refused: bool)
      requires k < |tried| && script.host == host
      requires Reached(a, tried, script, sent, k, []) && status == script.StatusBefore(k)
      modifies container
      ensures attempt == script.AttemptAt(k) && refused == script.Refused(k)
      ensures refused ==> attempt.Answered? && attempt.reply == script.StatusBefore(k + 1)
      ensures Reached(a, tried, script, sent, k + 1, Owed(a, tried, script, k))
      ensures refused ==> Owed(a, tried, script, k) == []
    {
      var doc := ControlDoc(tried[k], OutputFor(settings, a, tried[k]), FormatFor(settings, a), status);
      attempt, refused := TryAndConfirm(doc, host.HazardAt(k));
      assert doc == DocAt(settings, a, tried, script, k);
      ExchangeGrows(settings, a, tried, script, k, sent);
    }

    /** The loop over the replicas, up to the last one that is tried. */
    method TryReplicas(a: Assignment, tried: seq<string>, host: Host, ghost script: Script)
      returns (k: nat, attempt: Attempt)
      requires script == Script(container.inbox, host)
      modifies container
      ensures k == script.StopFrom(0, |tried|)
      ensures k < |tried| ==> attempt == script.AttemptAt(k)
      ensures k < |tried| ==> Reached(a, tried, script, old(container.outbox), k + 1, Owed(a, tried, script, k))
      ensures k == |tried| ==> Reached(a, tried, script, old(container.outbox), k, [])
    {
      ghost var sent := container.outbox;
      var status := "unknown";
      k, attempt := 0, Gone;
      while k < |tried|
        invariant 0 <= k <= |tried|
        invariant script.StopFrom(k, |tried|) == script.StopFrom(0, |tried|)
        invariant Reached(a, tried, script, sent, k, []) && status == script.StatusBefore(k)
      {
        var refused;
        attempt, refused := TryNext(a, tried, k, status, host, script, sent);
        if !refused {
          return;
        }
        status := attempt.reply;
        k := k + 1;
      }
    }

    /** What is made of the last attempt, or of having no replica left. */
    method Conclude(a: Assignment, tried: seq<string>, k: nat, attempt: Attempt, host: Host, ghost script: Script)
      returns (exit: Exit)
      requires script.host == host && !host.setupFails
      requires k == script.Stop(|tried|) <= |tried| && (k < |tried| ==> attempt == script.AttemptAt(k))
      modifies this, container`outbox
      ensures exit == Judge(a, tried, script).exit
      ensures reported == old(reported) + ReportedBy(settings, Judge(a, tried, script))
      ensures uploadQueue == old(uploadQueue) + QueuedBy(settings, a, tried, script)
      ensures container.outbox == old(container.outbox) + Owed(a, tried, script, k)
    {
      if tried == [] {
        return Uncaught;
      }
      if k == |tried| {
        exit := ReportFailure(a, tried);
        if exit.Finished? && host.timesFail {
          exit := ReportFailure(a, tried);
        }
        return;
      }
      if attempt.Gone? {
        return Exited;
      }
      if attempt.Succeeded() {
        exit := ConcludeSuccess(a, tried, k, host);
      } else {
        exit := ReportFailure(a, tried);
      }
    }

    /** Delivers and confirms the success of attempt `k`; whatever raises on the way is a failure. */
    method ConcludeSuccess(a: Assignment, tried: seq<string>, k: nat, host: Host) returns (exit: Exit)
      requires k < |tried|
      modifies this, container`outbox
      ensures var rec, calm := MakeRecord(a, tried[k], "success"), !host.HazardAt(k).ConfirmFails?;
        var v := if rec.None? || !calm || host.timesFail then Failing(a, tried, rec, false)
                 else Verdict(Finished, rec, []);
        && exit == v.exit && reported == old(reported) + ReportedBy(settings, v)
        && uploadQueue == old(uploadQueue) +
             (if settings.objectStore && rec.Some? then [Item(OutputFor(settings, a, tried[k]), rec.value)] else [])
        && container.outbox == old(container.outbox) + if rec.Some? && calm then [Confirmed] else []
    {
      var rec := MakeRecord(a, tried[k], "success");
      if rec.Some? {
        DeliverSuccess(OutputFor(settings, a, tried[k]), rec.value);
        if !host.HazardAt(k).ConfirmFails? {
          container.Confirm();
          if !host.timesFail {
            return Finished;
          }
        }
      }
      exit := ReportFailure(a, tried);
    }

    /** The whole task: its records, what goes to the uploader, what the container is sent, and what
        is left to be received. */
    method TransformFile(a: Assignment, host: Host) returns (exit: Exit)
      modifies this, container
      ensures
        var tried := Tried(settings.cachePrefix, settings.hash, a.task.paths);
        var script := Script(old(container.inbox), host);
        var v, tries := Judge(a, tried, script), script.Tries(|tried|);
        && exit == v.exit
        && reported == old(reported) + ReportedBy(settings, v)
        && uploadQueue == old(uploadQueue) + QueuedBy(settings, a, tried, script)
        && container.outbox == old(container.outbox) + Exchange(settings, a, tried, script, tries)
        && container.inbox == script.InboxAt(tries)
    {
      var ordered := PrioritizeReplicas(a.task.paths);
      var tried := PrependXcache(settings.cachePrefix, settings.hash, ordered);
      if host.setupFails {
        return Uncaught;
      }
      exit := TransformTried(a, tried, host);
    }

    /** The task with the replicas in the order in which they are tried. */
    method TransformTried(a: Assignment, tried: seq<string>, host: Host) returns (exit: Exit)
      requires !host.setupFails
      modifies this, container
      ensures var script := Script(old(container.inbox), host);
        && exit == Judge(a, tried, script).exit
        && reported == old(reported) + ReportedBy(settings, Judge(a, tried, script))
        && uploadQueue == old(uploadQueue) + QueuedBy(settings, a, tried, script)
        && Reached(a, tried, script, old(container.outbox), script.Tries(|tried|), [])
    {
      ghost var script := Script(container.inbox, host);
      var k, attempt := TryReplicas(a, tried, host, script);
      assert script.Tries(|tried|) == if k < |tried| then k + 1 else k;
      exit := Conclude(a, tried, k, attempt, host, script);
    }
  }
}
