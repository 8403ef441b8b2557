/** Searching file contents (internal/tools/grep.go): the same pruned walk, another count of
    what was scanned, and the accounting of what is shown.  The limit on the scan, 50,000
    files in the code, is a parameter. */
module GrepWalk {
  import opened IgnoreWalk

  /** A file with the lines of it that matched. */
  datatype Hit = Hit(path: string, matches: seq<string>)

  function AllMatches(hits: seq<Hit>): seq<string> {
    if hits == [] then [] else AllMatches(hits[..|hits| - 1]) + hits[|hits| - 1].matches
  }

  function Paths(hits: seq<Hit>): seq<string> {
    if hits == [] then [] else Paths(hits[..|hits| - 1]) + [hits[|hits| - 1].path]
  }

  lemma {:induction false} PathCount(hits: seq<Hit>)
    ensures |Paths(hits)| == |hits|
  {
    if hits != [] { PathCount(hits[..|hits| - 1]); }
  }

  /** Grep.Execute's accounting: what is shown is the front of what was found, everything
      is counted, and truncated means exactly that something was left out. */
  method Account(hits: seq<Hit>, limit: nat, filesOnly: bool)
    returns (matches: seq<string>, files: seq<string>, total: nat, truncated: bool)
    ensures total == |AllMatches(hits)|
    ensures matches == if filesOnly then [] else Take(AllMatches(hits), limit)
    ensures files == if filesOnly then Take(Paths(hits), limit) else Paths(hits)
    ensures truncated <==> if filesOnly then |hits| > limit else total > limit
  {
    matches, files, total, truncated := [], [], 0, false;
    for i := 0 to |hits|
      invariant total == |AllMatches(hits[..i])| && files == Paths(hits[..i])
      invariant matches == if filesOnly then [] else Take(AllMatches(hits[..i]), limit)
      invariant truncated <==> !filesOnly && total > limit
    {
      assert hits[..i + 1][..i] == hits[..i];
      var h := hits[i];
      ghost var before := AllMatches(hits[..i]);
      total := total + |h.matches|;
      files := files + [h.path];
      if filesOnly { continue; }
      for k := 0 to |h.matches|
        invariant matches == Take(before + h.matches[..k], limit)
        invariant truncated <==> |before| + k > limit
      {
        assert before + h.matches[..k + 1] == before + h.matches[..k] + [h.matches[k]];
        if |matches| >= limit {
          truncated := true;
          continue;
        }
        matches := matches + [h.matches[k]];
      }
      assert h.matches[..|h.matches|] == h.matches;
    }
    assert hits[..|hits|] == hits;
    PathCount(hits);
    if filesOnly && |files| > limit {
      files := files[..limit];
      truncated := true;
    }
  }

  // ---- The walk ----

  /** What opening a file comes to: it cannot be read, it is not worth reading (too large,
      or binary), or these lines of it match. */
  datatype Look = Unreadable | Unsuitable | Found(lines: seq<string>)

  /** What a search asks of the tree: which files are regular and fit the file pattern, and
      what is found in them. */
  datatype Search = Search(glob: Glob, rules: seq<Rule>, fits: Entry -> bool, look: Entry -> Look, maxScan: nat)

  /** The counters and hits of a search under way. */
  datatype Progress = Progress(scanned: nat, skipped: nat, hits: seq<Hit>, stopped: bool)

  const NO_PROGRESS := Progress(0, 0, [], false)

  predicate Candidate(q: Search, e: Entry) {
    !Match(q.glob, q.rules, e.path, e.isDir) && !e.isDir && q.fits(e)
  }

  function Opened(q: Search, t: Progress, e: Entry): Progress {
    match q.look(e)
    case Unreadable => t
    case Unsuitable => t.(skipped := t.skipped + 1)
    case Found(lines) => if lines == [] then t else t.(hits := t.hits + [Hit(PathText(e.path), lines)])
  }

  /** The walk's callback on one entry. */
  function Step(q: Search, t: Progress, e: Entry): Progress {
    if t.stopped || !Candidate(q, e) then t
    else if t.scanned + 1 > q.maxScan then t.(scanned := t.scanned + 1, stopped := true)
    else Opened(q, t.(scanned := t.scanned + 1), e)
  }

  function Steps(q: Search, t: Progress, es: seq<Entry>): Progress
    decreases es
  {
    if es == [] then t else Steps(q, Step(q, t, es[0]), es[1..])
  }

  function Candidates(q: Search, es: seq<Entry>): seq<Entry> {
    if es == [] then [] else (if Candidate(q, es[0]) then [es[0]] else []) + Candidates(q, es[1..])
  }

  /** The files a search would open if it walked everywhere: regular, fitting, not ignored. */
  function Fitting(q: Search, es: seq<Entry>): seq<Entry> {
    if es == [] then [] else (if !es[0].isDir && q.fits(es[0]) then [es[0]] else []) + Fitting(q, es[1..])
  }

  function HitsIn(q: Search, files: seq<Entry>): seq<Hit> {
    if files == [] then []
    else HitsIn(q, files[..|files| - 1])
         + match q.look(files[|files| - 1])
           case Found(lines) => if lines == [] then [] else [Hit(PathText(files[|files| - 1].path), lines)]
           case _ => []
  }

  function SkippedIn(q: Search, files: seq<Entry>): nat {
    if files == [] then 0
    else SkippedIn(q, files[..|files| - 1]) + if q.look(files[|files| - 1]).Unsuitable? then 1 else 0
  }

  /** The progress of a search that has come upon these files. */
  ghost predicate ProgressFor(q: Search, t: Progress, files: seq<Entry>) {
    && t.hits == HitsIn(q, Take(files, q.maxScan)) && t.skipped == SkippedIn(q, Take(files, q.maxScan))
    && (t.stopped <==> |files| > q.maxScan)
    && t.scanned == if |files| > q.maxScan then q.maxScan + 1 else |files|
  }

  lemma OneFile(q: Search, t: Progress, files: seq<Entry>, e: Entry)
    requires ProgressFor(q, t, files) && Candidate(q, e)
    ensures ProgressFor(q, Step(q, t, e), files + [e])
  {
    var more := files + [e];
    if |files| < q.maxScan {
      assert Take(more, q.maxScan) == more && Take(files, q.maxScan) == files;
      assert more[..|files|] == files;
      hide Candidate;
    } else {
      assert Take(more, q.maxScan) == Take(files, q.maxScan) by {
        assert more[..q.maxScan] == files[..q.maxScan];
        assert files[..|files|] == files;
      }
    }
  }

  lemma NoFile(q: Search, t: Progress, files: seq<Entry>, e: Entry)
    requires ProgressFor(q, t, files) && !Candidate(q, e)
    ensures ProgressFor(q, Step(q, t, e), files + [])
  {
    assert files + [] == files;
    hide ProgressFor, Candidate;
  }

  lemma StepsUnfold(q: Search, t: Progress, es: seq<Entry>)
    ensures es == [] ==> Steps(q, t, es) == t && Candidates(q, es) == []
    ensures es != [] ==>
              && Steps(q, t, es) == Steps(q, Step(q, t, es[0]), es[1..])
              && Candidates(q, es) == (if Candidate(q, es[0]) then [es[0]] else []) + Candidates(q, es[1..])
  {
    hide Step, Candidate;
  }

  lemma {:induction false} ProgressOf(q: Search, t: Progress, files: seq<Entry>, es: seq<Entry>)
    requires ProgressFor(q, t, files)
    ensures ProgressFor(q, Steps(q, t, es), files + Candidates(q, es))
    decreases es
  {
    hide *;
    StepsUnfold(q, t, es);
    if es == [] {
      assert files + [] == files;
    } else {
      var mine := if Candidate(q, es[0]) then [es[0]] else [];
      if Candidate(q, es[0]) { OneFile(q, t, files, es[0]); } else { NoFile(q, t, files, es[0]); }
      ProgressOf(q, Step(q, t, es[0]), files + mine, es[1..]);
      assert files + mine + Candidates(q, es[1..]) == files + (mine + Candidates(q, es[1..]));
    }
  }

  lemma {:induction false} CandidatesAreFitting(q: Search, es: seq<Entry>)
    ensures Candidates(q, es) == Fitting(q, Kept(q.glob, q.rules, es))
  {
    if es != [] {
      CandidatesAreFitting(q, es[1..]);
      var rest := Kept(q.glob, q.rules, es[1..]);
      assert ([es[0]] + rest)[1..] == rest && [] + rest == rest;
    }
  }

  /** Over any tree, whatever the scan limit: the search opens the fitting files of the
      filtered full walk, in order, up to the limit; it reports every one of those that
      matches, and says that it stopped exactly when there were more. */
  lemma SearchIsFiltering(q: Search, base: Path, f: Forest)
    ensures ProgressFor(q, Steps(q, NO_PROGRESS, Visited(q.glob, q.rules, base, f)),
                        Fitting(q, Kept(q.glob, q.rules, FullWalk(base, f))))
  {
    var es := Visited(q.glob, q.rules, base, f);
    PruningIsFiltering(q.glob, q.rules, base, f);
    CandidatesAreFitting(q, es);
    assert ProgressFor(q, NO_PROGRESS, []);
    ProgressOf(q, NO_PROGRESS, [], es);
    assert [] + Candidates(q, es) == Candidates(q, es);
  }

  lemma {:induction false} StepsAppend(q: Search, t: Progress, a: seq<Entry>, b: seq<Entry>)
    ensures Steps(q, t, a + b) == Steps(q, Steps(q, t, a), b)
    decreases a
  {
    if a == [] {
      assert a + b == b;
    } else {
      assert (a + b)[1..] == a[1..] + b;
      StepsAppend(q, Step(q, t, a[0]), a[1..], b);
    }
  }

  lemma {:induction false} StoppedSearch(q: Search, t: Progress, es: seq<Entry>)
    requires t.stopped
    ensures Steps(q, t, es) == t
    decreases es
  {
    if es != [] { StoppedSearch(q, t, es[1..]); }
  }

  lemma OneStep(q: Search, t: Progress, e: Entry)
    ensures Steps(q, t, [e]) == Step(q, t, e)
  {
    assert [e][1..] == [];
  }

  /** Grep.Execute's walk. */
  class Searcher {
    const q: Search
    const ignore: Ignore
    var res: Progress

    ghost predicate Valid() {
      ignore.rules == q.rules && ignore.glob == q.glob
    }

    constructor (q: Search)
      ensures Valid() && this.q == q && res == NO_PROGRESS
    {
      this.q, res := q, NO_PROGRESS;
      ignore := new Ignore(q.rules, q.glob);
    }

    /** The callback; skip tells the walk to stay out of this directory. */
    method OnPath(e: Entry) returns (skip: bool)
      requires Valid() && !res.stopped
      modifies this
      ensures res == Step(q, old(res), e)
      ensures skip == (e.isDir && Match(q.glob, q.rules, e.path, true))
    {
      var hidden := ignore.Matches(e.path, e.isDir);
      if hidden { return e.isDir; }
      skip := false;
      if e.isDir || !q.fits(e) { return; }
      res := res.(scanned := res.scanned + 1);
      if res.scanned > q.maxScan {
        res := res.(stopped := true);
        return;
      }
      match q.look(e) {
        case Unreadable =>
        case Unsuitable => res := res.(skipped := res.skipped + 1);
        case Found(lines) => if lines != [] { res := res.(hits := res.hits + [Hit(PathText(e.path), lines)]); }
      }
    }

    method Walk(base: Path, f: Forest)
      requires Valid()
      modifies this
      ensures res == Steps(q, old(res), Visited(q.glob, q.rules, base, f))
      decreases f
    {
      ghost var start := res;
      if res.stopped {
        StoppedSearch(q, start, Visited(q.glob, q.rules, base, f));
        return;
      }
      if f.Node? {
        var e := Entry(base + [f.name], f.isDir);
        ghost var below := if f.isDir && !Match(q.glob, q.rules, e.path, true)
          then Visited(q.glob, q.rules, e.path, f.below) else [];
        ghost var next := Visited(q.glob, q.rules, base, f.next);
        assert Visited(q.glob, q.rules, base, f) == [e] + below + next;
        var skip := OnPath(e);
        OneStep(q, start, e);
        StepsAppend(q, start, [e] + below, next);
        StepsAppend(q, start, [e], below);
        hide Step, Match;
        if res.stopped {
          StoppedSearch(q, res, below);
          StoppedSearch(q, res, next);
          return;
        }
        if f.isDir && !skip { Walk(e.path, f.below); }
        Walk(base, f.next);
      }
    }
  }
}
