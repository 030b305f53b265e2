/** Data identifiers (did_parser.py) and the routing of the lookup tasks made from them
    (celery_task_router.py). The regular expression class `\w` is the parameter `word`. */
module DidParser {
  import opened Text

  type CharClass = char -> bool

  datatype Did = Did(scheme: string, did: string) {
    function MicroserviceQueue(): string { "did_finder_" + scheme }

    function FullDid(): string { scheme + "://" + did }

    function LookupTaskName(): string { MicroserviceQueue() + ".lookup_dataset" }
  }

  function WordPrefix(word: CharClass, s: string): (n: nat)
    ensures n <= |s|
    ensures forall i :: 0 <= i < n ==> word(s[i])
    ensures n < |s| ==> !word(s[n])
  {
    if s != "" && word(s[0]) then
      var n := 1 + WordPrefix(word, s[1..]);
      assert forall i :: 1 <= i < n ==> s[i] == s[1..][i - 1];
      n
    else 0
  }

  predicate IsWord(word: CharClass, s: string) {
    s != "" && forall i :: 0 <= i < |s| ==> word(s[i])
  }

  /** What `(.*$)` captures from `s` when it has to start at its front: `.` stops at a newline
      and `$` also matches just before a newline that ends the string. */
  function RestOfLine(s: string): Option<string> {
    var i := IndexOf(s, '\n');
    if i == |s| || i == |s| - 1 then Some(s[..i]) else None
  }

  /** Match of `^(\w+):\/\/(.*$)`: since `:` is no word character, the scheme is the
      longest word at the front. */
  function Match(word: CharClass, s: string): Option<Did> {
    var n := WordPrefix(word, s);
    if n > 0 && StartsWith(s[n..], "://") then
      match RestOfLine(s[n + 3..])
      case Some(rest) => Some(Did(s[..n], rest))
      case None => None
    else None
  }

  function Parse(word: CharClass, s: string, defaultScheme: string): Did {
    match Match(word, s)
    case Some(d) => d
    case None => Did(defaultScheme, s)
  }

  lemma WordPrefixOfFullDid(word: CharClass, scheme: string, rest: string)
    requires !word(':') && IsWord(word, scheme)
    ensures var s := scheme + "://" + rest;
      WordPrefix(word, s) == |scheme| && StartsWith(s[|scheme|..], "://") && s[|scheme| + 3..] == rest
  {
    var s := scheme + "://" + rest;
    assert s[|scheme|] == ':';
    assert forall i :: 0 <= i < |scheme| ==> s[i] == scheme[i];
    assert s[|scheme|..] == "://" + rest;
  }

  /** `$` lets a newline at the very end go. */
  function Chomp(s: string): string {
    if s != "" && s[|s| - 1] == '\n' then s[..|s| - 1] else s
  }

  /** The text names scheme `a`: a word, `://` and a rest of one line. */
  predicate Spelled(word: CharClass, s: string, a: string, b: string) {
    s == a + "://" + b && IsWord(word, a) && '\n' !in Chomp(b)
  }

  lemma SpelledParses(word: CharClass, s: string, a: string, b: string, defaultScheme: string)
    requires !word(':') && Spelled(word, s, a, b)
    ensures Parse(word, s, defaultScheme) == Did(a, Chomp(b))
  {
    WordPrefixOfFullDid(word, a, b);
    assert s[..|a|] == a;
    RestIsChomped(b);
  }

  lemma RestIsChomped(b: string)
    ensures RestOfLine(b) == if '\n' !in Chomp(b) then Some(Chomp(b)) else None
  {
    var i := IndexOf(b, '\n');
    if b != "" && b[|b| - 1] == '\n' {
      assert b == b[..|b| - 1] + ['\n'];
      if i == |b| - 1 {
        assert b[..i] == Chomp(b);
      } else {
        assert b[..|b| - 1][i] == '\n';
      }
    } else if i == |b| {
      assert b[..i] == b;
    }
  }

  /** A text is parsed by its own scheme exactly when it spells one, and else, whole, by the default. */
  lemma ParseByText(word: CharClass, s: string, defaultScheme: string)
    requires !word(':')
    ensures if exists a, b :: Spelled(word, s, a, b)
            then forall a, b :: Spelled(word, s, a, b) ==> Parse(word, s, defaultScheme) == Did(a, Chomp(b))
            else Parse(word, s, defaultScheme) == Did(defaultScheme, s)
  {
    forall a, b | Spelled(word, s, a, b) ensures Parse(word, s, defaultScheme) == Did(a, Chomp(b)) {
      SpelledParses(word, s, a, b, defaultScheme);
    }
    if Match(word, s).Some? {
      var n := WordPrefix(word, s);
      RestIsChomped(s[n + 3..]);
      assert s == s[..n] + "://" + s[n + 3..];
      assert Spelled(word, s, s[..n], s[n + 3..]);
    }
  }

  /** A scope in front of a name, with a bare colon, is no scheme. */
  lemma ScopeIsNoScheme(word: CharClass, scope: string, name: string, defaultScheme: string)
    requires !word(':') && IsWord(word, scope) && !StartsWith(name, "//")
    ensures Parse(word, scope + ":" + name, defaultScheme) == Did(defaultScheme, scope + ":" + name)
  {
    var s := scope + ":" + name;
    ParseByText(word, s, defaultScheme);
    if a, b :| Spelled(word, s, a, b) {
      SlashesFollow(word, scope, name, a, b);
    }
  }

  lemma SlashesFollow(word: CharClass, scope: string, name: string, a: string, b: string)
    requires !word(':') && IsWord(word, scope) && Spelled(word, scope + ":" + name, a, b)
    ensures name == "//" + b
  {
    var s, t := scope + ":" + name, a + "://" + b;
    FirstColon(word, s, scope, a);
    assert s[|scope| + 1..] == name;
    assert t[|a| + 1..] == "//" + b;
  }

  /** Two words that end at a colon are the same. */
  lemma FirstColon(word: CharClass, s: string, a: string, b: string)
    requires !word(':') && IsWord(word, a) && IsWord(word, b)
    requires |s| > |a| && s[..|a|] == a && s[|a|] == ':'
    requires |s| > |b| && s[..|b|] == b && s[|b|] == ':'
    ensures a == b
  {
    assert forall i :: 0 <= i < |a| ==> s[i] == a[i];
    assert forall i :: 0 <= i < |b| ==> s[i] == b[i];
    assert |a| == |b|;
  }

  lemma ReparseWord(word: CharClass, d: Did, otherDefault: string)
    requires !word(':') && IsWord(word, d.scheme)
    ensures Parse(word, d.FullDid(), otherDefault) == d <==> '\n' !in d.did
  {
    var full := d.FullDid();
    WordPrefixOfFullDid(word, d.scheme, d.did);
    assert full[..|d.scheme|] == d.scheme;
    assert |full| > |d.did|;
    assert d.did[..|d.did|] == d.did;
  }

  lemma ReparseNonWord(word: CharClass, d: Did, otherDefault: string)
    requires !IsWord(word, d.scheme)
    ensures Parse(word, d.FullDid(), otherDefault) != d
  {
    assert |d.FullDid()| > |d.did|;
  }

  lemma MatchIsWord(word: CharClass, s: string)
    requires Match(word, s).Some?
    ensures IsWord(word, Match(word, s).value.scheme) && '\n' !in Match(word, s).value.did
  {
    var n := WordPrefix(word, s);
    assert forall i :: 0 <= i < n ==> s[..n][i] == s[i];
  }

  /** Reparsing the full DID, with whatever default, gives back the same scheme and DID
      exactly when the text named its scheme, or it holds no newline and the default scheme
      is a word. */
  lemma FullDidRoundTrip(word: CharClass, s: string, defaultScheme: string, otherDefault: string)
    requires !word(':')
    ensures var d := Parse(word, s, defaultScheme);
      Parse(word, d.FullDid(), otherDefault) == d
      <==> Match(word, s).Some? || (IsWord(word, defaultScheme) && '\n' !in s)
  {
    var d := Parse(word, s, defaultScheme);
    if Match(word, s).Some? {
      MatchIsWord(word, s);
    }
    if IsWord(word, d.scheme) {
      ReparseWord(word, d, otherDefault);
    } else {
      ReparseNonWord(word, d, otherDefault);
    }
  }

  /** Defaulted and explicit spellings of one DID name the same dataset. */
  lemma SpellingsShareDataset(word: CharClass, s: string, defaultScheme: string, otherDefault: string)
    requires !word(':') && IsWord(word, defaultScheme) && '\n' !in s && Match(word, s).None?
    ensures Parse(word, defaultScheme + "://" + s, otherDefault).FullDid()
         == Parse(word, s, defaultScheme).FullDid()
  {
    FullDidRoundTrip(word, s, defaultScheme, otherDefault);
  }

  const LOOKUP_SUFFIX := ".lookup_dataset"

  /** The longest non-empty `q` such that `q + ".lookup_dataset"` is a prefix of `line`,
      looking at candidates of at most `n` characters. */
  function LongestQueue(line: string, n: nat): Option<string>
    requires n <= |line|
  {
    if n == 0 then None
    else if StartsWith(line[n..], LOOKUP_SUFFIX) then Some(line[..n])
    else LongestQueue(line, n - 1)
  }

  /** `re.search` of `(.+)\.lookup_dataset`: the first line with a match, matched greedily. */
  function SearchLookup(lines: seq<string>): Option<string> {
    if lines == [] then None
    else
      match LongestQueue(lines[0], |lines[0]|)
      case Some(q) => Some(q)
      case None => SearchLookup(lines[1..])
  }

  function RouteTask(name: string, requestId: string): string {
    if name == "transformer_sidecar.transform_file" then "transformer-" + requestId
    else
      match SearchLookup(Split(name, '\n'))
      case Some(q) => q
      case None => "celery"
  }

  lemma {:induction false} LongestQueueFindsSuffix(q: string, n: nat)
    requires q != "" && |q| <= n <= |q| + |LOOKUP_SUFFIX|
    ensures LongestQueue(q + LOOKUP_SUFFIX, n) == Some(q)
    decreases n
  {
    var line := q + LOOKUP_SUFFIX;
    if n == |q| {
      assert line[n..] == LOOKUP_SUFFIX;
      assert line[..n] == q;
    } else {
      assert |line[n..]| < |LOOKUP_SUFFIX|;
      LongestQueueFindsSuffix(q, n - 1);
    }
  }

  lemma {:induction false} LongestQueueIs(line: string, k: nat, n: nat)
    requires k <= n <= |line|
    requires forall i :: k < i <= n ==> !StartsWith(line[i..], LOOKUP_SUFFIX)
    requires k > 0 ==> StartsWith(line[k..], LOOKUP_SUFFIX)
    ensures LongestQueue(line, n) == if k > 0 then Some(line[..k]) else None
    decreases n
  {
    if n > k {
      LongestQueueIs(line, k, n - 1);
    }
  }

  lemma OneLine(name: string)
    requires '\n' !in name
    ensures Split(name, '\n') == [name]
  {
  }

  /** A name on one line is routed by the last `.lookup_dataset` that is not at its very front, to the queue
      called by what is before it; without one to the default queue, and transform tasks to
      the queue of their request. */
  lemma RouteByText(name: string, k: nat, requestId: string)
    requires '\n' !in name && k <= |name|
    requires forall i :: k < i <= |name| ==> !StartsWith(name[i..], ".lookup_dataset")
    requires k > 0 ==> StartsWith(name[k..], ".lookup_dataset")
    ensures RouteTask(name, requestId) ==
      if name == "transformer_sidecar.transform_file" then "transformer-" + requestId
      else if k > 0 then name[..k]
      else "celery"
  {
    OneLine(name);
    LongestQueueIs(name, k, |name|);
    assert SearchLookup([name][1..]) == None;
  }

  /** A lookup task is delivered to the queue of the finder that its scheme names. */
  lemma LookupTaskReachesFinder(d: Did, requestId: string)
    requires '\n' !in d.scheme
    ensures d.LookupTaskName() == "did_finder_" + d.scheme + ".lookup_dataset"
    ensures RouteTask(d.LookupTaskName(), requestId) == "did_finder_" + d.scheme
  {
    var q := d.MicroserviceQueue();
    var name := d.LookupTaskName();
    assert name[|name| - 1] == 't';
    assert '\n' !in name;
    assert Split(name, '\n') == [name];
    LongestQueueFindsSuffix(q, |name|);
    assert name[|name| - 2] == 'e' by { assert name[|q| + 13] == LOOKUP_SUFFIX[13]; }
    assert name[0] == 'd';
  }
}
