/** Submissions of file lists: the dataset of a list is found by a hash of its entries, joined by
    spaces, so two lists with the same joined text share the dataset of the first one. */
module FileLists {
  import opened Text
  import opened DidParser
  import opened Models
  import opened Protocol
  import opened ProtocolInvariant
  import opened ProtocolTheorems

  /** Digests are written in hexadecimal digits, so they name no DID. */
  ghost predicate NoColons(c: Config) {
    forall text :: ':' !in c.digest(text)
  }

  ghost predicate Injective(c: Config) {
    forall a, b :: c.digest(a) == c.digest(b) ==> a == b
  }

  function NameOf(c: Config, fileList: seq<string>): string {
    c.digest(Join(fileList, ' '))
  }

  /** The submission of a file list that is not rejected; it need not succeed. */
  predicate Lists(a: Action) {
    a.Submit? && a.did == "" && a.fileList != []
  }

  /** The first list with dataset name `name` that was submitted. */
  function FirstNamed(c: Config, h: History, name: string): Option<seq<string>> {
    match h
    case Start => None
    case Then(past, a) =>
      if FirstNamed(c, past, name).Some? then FirstNamed(c, past, name)
      else if Lists(a) && NameOf(c, a.fileList) == name then Some(a.fileList)
      else None
  }

  /** The first list with joined text `text` that was submitted. */
  function FirstJoined(h: History, text: string): Option<seq<string>> {
    match h
    case Start => None
    case Then(past, a) =>
      if FirstJoined(past, text).Some? then FirstJoined(past, text)
      else if Lists(a) && Join(a.fileList, ' ') == text then Some(a.fileList)
      else None
  }

  lemma {:induction false} FirstNamedIsJoined(c: Config, h: History, text: string)
    requires Injective(c)
    ensures FirstNamed(c, h, c.digest(text)) == FirstJoined(h, text)
  {
    if h.Then? {
      FirstNamedIsJoined(c, h.past, text);
    }
  }

  lemma {:induction false} FirstJoinedIs(h: History, text: string)
    ensures FirstJoined(h, text).Some? ==>
      FirstJoined(h, text).value != [] && Join(FirstJoined(h, text).value, ' ') == text
  {
    if h.Then? {
      FirstJoinedIs(h.past, text);
    }
  }

  // ---------------------------------------------------------------- the dataset of a list

  function Paths(files: seq<DatasetFile>): (r: seq<string>)
    ensures |r| == |files|
  {
    seq(|files|, i requires 0 <= i < |files| => files[i].paths)
  }

  /** The dataset called `name`, if there is one, holds the files of the list submitted first. */
  predicate NamedOk(s: Sys, name: string, first: Option<seq<string>>) {
    match FindByName(s.datasets, name)
    case None => first == None
    case Some(d) => s.datasets[d].status.Complete? && first == Some(Paths(s.datasets[d].files))
  }

  lemma FoundAmongMore(datasets: seq<Dataset>, more: Dataset, name: string)
    ensures FindByName(datasets, name).Some? ==> FindByName(datasets + [more], name) == FindByName(datasets, name)
    ensures FindByName(datasets, name).None? ==>
      FindByName(datasets + [more], name) == if more.name == name then Some(|datasets|) else None
  {
    var all := datasets + [more];
    FirstFound(datasets, name);
    assert forall i :: 0 <= i < |datasets| ==> all[i] == datasets[i];
    match FindByName(datasets, name)
    case Some(d) => FirstMatch(all, name, d);
    case None =>
      if more.name == name {
        FirstMatch(all, name, |datasets|);
      }
  }

  /** What is found is the first dataset of that name. */
  lemma {:induction false} FirstFound(datasets: seq<Dataset>, name: string)
    ensures FindByName(datasets, name).Some? ==>
      forall i :: 0 <= i < FindByName(datasets, name).value ==> datasets[i].name != name
  {
    if datasets != [] && datasets[0].name != name {
      FirstFound(datasets[1..], name);
      if FindByName(datasets[1..], name).Some? {
        forall i | 0 <= i < FindByName(datasets, name).value ensures datasets[i].name != name {
          assert i > 0 ==> datasets[i] == datasets[1..][i - 1];
        }
      }
    }
  }

  lemma CreationNames(s: Sys, candidate: Dataset, name: string, first: Option<seq<string>>)
    requires NamedOk(s, name, first)
    requires candidate.name == name ==> candidate.status.Complete?
    ensures NamedOk(FindOrCreate(s, candidate).0, name,
      if first == None && candidate.name == name then Some(Paths(candidate.files)) else first)
  {
    FoundAmongMore(s.datasets, candidate, name);
  }

  lemma FullDidHasColon(d: Did)
    ensures ':' in d.FullDid()
  {
    assert d.FullDid()[|d.scheme|] == ':';
  }

  lemma SubmitNames(c: Config, s: Sys, a: Action, name: string, first: Option<seq<string>>)
    requires Inv(s) && a.Submit? && ':' !in name && NamedOk(s, name, first)
    ensures NamedOk(Step(c, s, a), name,
      if first == None && Lists(a) && NameOf(c, a.fileList) == name then Some(a.fileList) else first)
  {
    match ResolveDataset(c, s, a.did, a.fileList)
    case None =>
    case Some((s1, d)) =>
      if a.did != "" {
        var candidate := DidDataset(Parse(c.word, a.did, c.defaultScheme));
        FullDidHasColon(Parse(c.word, a.did, c.defaultScheme));
        CreationNames(s, candidate, name, first);
      } else {
        var candidate := FileListDataset(c, s, a.fileList);
        assert Paths(candidate.files) == a.fileList;
        CreationNames(s, candidate, name, first);
      }
      ResolveKeepsInv(c, s, a.did, a.fileList);
      var after := if first == None && Lists(a) && NameOf(c, a.fileList) == name then Some(a.fileList) else first;
      if a.ready {
        ServingNames(c, s1, d, name, after);
      }
  }

  lemma ServingNames(c: Config, s: Sys, d: nat, name: string, first: Option<seq<string>>)
    requires Inv(s) && d < |s.datasets| && NamedOk(s, name, first)
    ensures NamedOk(s.(datasets := s.datasets[d := DatasetAfterSubmit(c, s.datasets[d])],
                       requests := s.requests + [RequestOn(s.datasets[d], d)]), name, first)
  {
    var s' := s.(datasets := s.datasets[d := DatasetAfterSubmit(c, s.datasets[d])],
                 requests := s.requests + [RequestOn(s.datasets[d], d)]);
    SameNames(s.datasets, s'.datasets, name);
  }

  lemma SameNames(a: seq<Dataset>, b: seq<Dataset>, name: string)
    requires |a| == |b| && forall i :: 0 <= i < |a| ==> b[i].name == a[i].name
    ensures FindByName(a, name) == FindByName(b, name)
  {
    FirstFound(a, name);
    FirstFound(b, name);
  }

  lemma OtherStepNames(c: Config, s: Sys, a: Action, name: string, first: Option<seq<string>>)
    requires Inv(s) && Enabled(s, a) && !a.Submit? && NamedOk(s, name, first)
    ensures NamedOk(Step(c, s, a), name, first)
  {
    var s' := Step(c, s, a);
    assert |s'.datasets| == |s.datasets|;
    forall d | 0 <= d < |s.datasets| ensures DatasetAdvances(s.datasets[d], s'.datasets[d]) {
      StepAdvancesDatasets(c, s, a, d);
    }
    SameNames(s.datasets, s'.datasets, name);
  }

  /** In every reachable state the dataset called like a list holds the files of the list with that
      name that was submitted first. */
  lemma {:induction false} DatasetOfFirstList(c: Config, h: History, name: string)
    requires Lawful(c, h) && ':' !in name
    ensures NamedOk(State(c, h), name, FirstNamed(c, h, name))
  {
    if h.Then? {
      DatasetOfFirstList(c, h.past, name);
      ReachableInv(c, h.past);
      if h.action.Submit? {
        SubmitNames(c, State(c, h.past), h.action, name, FirstNamed(c, h.past, name));
      } else {
        OtherStepNames(c, State(c, h.past), h.action, name, FirstNamed(c, h.past, name));
      }
    }
  }

  // ---------------------------------------------------------------- what a submitted list gets

  /** One task for each entry of the list, in order, with the replicas that the entry names. */
  predicate OneTaskPerEntry(q: Request, fileList: seq<string>) {
    |q.sent| == |fileList| && forall i :: 0 <= i < |fileList| ==> q.sent[i].paths == Split(fileList[i], ',')
  }

  lemma SameTasksSameList(q: Request, a: seq<string>, b: seq<string>)
    requires OneTaskPerEntry(q, a) && OneTaskPerEntry(q, b)
    ensures a == b
  {
    forall i | 0 <= i < |a| ensures a[i] == b[i] {
      JoinUndoesSplit(a[i], ',');
      JoinUndoesSplit(b[i], ',');
    }
  }

  /** The list whose files serve a submission of `fileList`. */
  function ServedBy(c: Config, h: History, fileList: seq<string>): seq<string> {
    match FirstNamed(c, h, NameOf(c, fileList))
    case Some(first) => first
    case None => fileList
  }

  /** A submitted list runs at once, in every reachable state, but with the entries of the list of its
      name that was submitted first: with its own exactly when no other list took its name before. An
      entry is one replica exactly when it has no comma. */
  lemma SubmittedFileListRuns(c: Config, h: History, fileList: seq<string>)
    requires Lawful(c, h) && NoColons(c) && fileList != []
    ensures var s, (s', response) := State(c, h), SubmitStep(c, State(c, h), "", fileList, true);
      && response.Ok? && |s'.requests| == |s.requests| + 1
      && var q, served := s'.requests[|s.requests|], ServedBy(c, h, fileList);
         && q.status.Running? && q.files == |q.sent|
         && OneTaskPerEntry(q, served) && (OneTaskPerEntry(q, fileList) <==> served == fileList)
         && (forall i :: 0 <= i < |served| ==> (q.sent[i].paths == [served[i]] <==> ',' !in served[i]))
         && (FirstNamed(c, h, NameOf(c, fileList)).Some? <==> |s'.datasets| == |s.datasets|)
         && (FirstNamed(c, h, NameOf(c, fileList)).None? ==>
               forall i :: 0 <= i < |q.sent| ==> q.sent[i].fileId == s.nextFile + i)
  {
    var s, name, served := State(c, h), NameOf(c, fileList), ServedBy(c, h, fileList);
    var d, files := ListIsPublished(c, h, fileList);
    PublishedPaths(d, files, served);
    forall i | 0 <= i < |served| ensures Split(served[i], ',') == [served[i]] <==> ',' !in served[i] {
      OneEntryOnePath(served[i]);
    }
    var q := NewRequest(d).Published(files).(status := Running);
    if OneTaskPerEntry(q, fileList) {
      SameTasksSameList(q, fileList, served);
    }
  }

  /** The request runs with the files of a dataset that holds the list it is served by. */
  lemma ListIsPublished(c: Config, h: History, fileList: seq<string>) returns (d: nat, files: seq<DatasetFile>)
    requires Lawful(c, h) && NoColons(c) && fileList != []
    ensures Paths(files) == ServedBy(c, h, fileList)
    ensures var s, (s', response) := State(c, h), SubmitStep(c, State(c, h), "", fileList, true);
      && response.Ok? && s'.requests == s.requests + [NewRequest(d).Published(files).(status := Running)]
      && var first := FirstNamed(c, h, NameOf(c, fileList));
         && (first.Some? <==> |s'.datasets| == |s.datasets|)
         && (first.None? ==> files == NewFiles(s.nextFile, fileList))
  {
    var s, name := State(c, h), NameOf(c, fileList);
    DatasetOfFirstList(c, h, name);
    match FindByName(s.datasets, name)
    case None =>
      NewListIsPublished(c, s, fileList);
      d, files := |s.datasets|, NewFiles(s.nextFile, fileList);
    case Some(i) =>
      d, files := i, s.datasets[i].files;
  }

  lemma PublishedPaths(d: nat, files: seq<DatasetFile>, paths: seq<string>)
    requires Paths(files) == paths
    ensures OneTaskPerEntry(NewRequest(d).Published(files), paths)
  {
    assert forall i :: 0 <= i < |files| ==> Paths(files)[i] == files[i].paths;
  }

  /** If digests are never the same for two texts, a list is served by its own entries exactly when no
      different list with the same joined text was submitted first. */
  lemma OwnEntriesUnlessJoinedBefore(c: Config, h: History, fileList: seq<string>)
    requires Injective(c)
    ensures ServedBy(c, h, fileList) == fileList
       <==> FirstJoined(h, Join(fileList, ' ')) in {None, Some(fileList)}
  {
    FirstNamedIsJoined(c, h, Join(fileList, ' '));
  }

  predicate SpaceFree(fileList: seq<string>) {
    forall i :: 0 <= i < |fileList| ==> ' ' !in fileList[i]
  }

  /** All lists that were submitted are free of spaces. */
  predicate AllSpaceFree(h: History) {
    h.Then? ==> AllSpaceFree(h.past) && (Lists(h.action) ==> SpaceFree(h.action.fileList))
  }

  lemma {:induction false} FirstIsSpaceFree(h: History, text: string)
    requires AllSpaceFree(h)
    ensures FirstJoined(h, text).Some? ==> SpaceFree(FirstJoined(h, text).value)
  {
    if h.Then? {
      FirstIsSpaceFree(h.past, text);
    }
  }

  /** Where no entry ever has a space, every list is served by its own entries. */
  lemma SpaceFreeListsKeepEntries(c: Config, h: History, fileList: seq<string>)
    requires Injective(c) && AllSpaceFree(h) && fileList != [] && SpaceFree(fileList)
    ensures ServedBy(c, h, fileList) == fileList
  {
    var text := Join(fileList, ' ');
    OwnEntriesUnlessJoinedBefore(c, h, fileList);
    FirstIsSpaceFree(h, text);
    FirstJoinedIs(h, text);
    if FirstJoined(h, text).Some? {
      SplitUndoesJoin(fileList, ' ');
      SplitUndoesJoin(FirstJoined(h, text).value, ' ');
    }
  }

  /** A list of one entry with a space, and then, from the same user or another, the list of its two
      parts: the second request runs with the one file of the first. */
  lemma SpaceMergesLists(c: Config, a: string, b: string)
    requires NoColons(c)
    ensures var h := Then(Start, Submit("", [a + " " + b], true));
      && Lawful(c, h) && ServedBy(c, h, [a, b]) == [a + " " + b]
      && var (s', response) := SubmitStep(c, State(c, h), "", [a, b], true);
         response.Ok? && |s'.requests| == 2 && s'.requests[1].status.Running? && s'.requests[1].files == 1
  {
    var one, two := [a + " " + b], [a, b];
    var h := Then(Start, Submit("", one, true));
    assert Join(one, ' ') == a + " " + b;
    assert two[1..] == [b];
    assert Join(two, ' ') == a + [' '] + b;
    assert FirstNamed(c, Start, NameOf(c, two)) == None;
    SubmittedFileListRuns(c, Start, one);
    SubmittedFileListRuns(c, h, two);
  }
}
