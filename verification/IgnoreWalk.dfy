/** Ignore rules and the directory walk that honours them (internal/workspace/ignore.go,
    internal/tools/glob.go). */
module IgnoreWalk {
  import opened Text

  /** A compiled rule. */
  datatype Rule = Rule(pattern: string, negate: bool, dirOnly: bool)

  /** doublestar.Match; a pattern it cannot parse matches nothing. */
  type Glob = (string, string) -> bool

  /** A clean workspace-relative path, as its components. */
  type Path = seq<string>

  function PathText(p: Path): string {
    Join(p, "/")
  }

  predicate Applies(glob: Glob, r: Rule, p: Path, isDir: bool) {
    (isDir || !r.dirOnly) && glob(r.pattern, PathText(p))
  }

  /** The rules applied to one path, the last match winning. */
  predicate MatchExact(glob: Glob, rules: seq<Rule>, p: Path, isDir: bool) {
    if rules == [] then false
    else
      var last := rules[|rules| - 1];
      if Applies(glob, last, p, isDir) then !last.negate else MatchExact(glob, rules[..|rules| - 1], p, isDir)
  }

  /** Ancestors first, then the path itself. */
  predicate Match(glob: Glob, rules: seq<Rule>, p: Path, isDir: bool) {
    rules != [] && p != [] &&
    ((exists i :: 1 <= i < |p| && MatchExact(glob, rules, p[..i], true)) || MatchExact(glob, rules, p, isDir))
  }

  class Ignore {
    const rules: seq<Rule>
    const glob: Glob

    constructor (rules: seq<Rule>, glob: Glob)
      ensures this.rules == rules && this.glob == glob
    {
      this.rules, this.glob := rules, glob;
    }

    method Exact(p: Path, isDir: bool) returns (ignored: bool)
      ensures ignored == MatchExact(glob, rules, p, isDir)
    {
      ignored := false;
      for i := 0 to |rules|
        invariant ignored == MatchExact(glob, rules[..i], p, isDir)
      {
        assert rules[..i + 1][..i] == rules[..i];
        var r := rules[i];
        if r.dirOnly && !isDir { continue; }
        if glob(r.pattern, PathText(p)) { ignored := !r.negate; }
      }
      assert rules[..|rules|] == rules;
    }

    method Matches(p: Path, isDir: bool) returns (ignored: bool)
      ensures ignored == Match(glob, rules, p, isDir)
    {
      if |rules| == 0 || p == [] { return false; }
      var i := 1;
      while i < |p|
        invariant 1 <= i <= |p|
        invariant forall j :: 1 <= j < i ==> !MatchExact(glob, rules, p[..j], true)
      {
        var above := Exact(p[..i], true);
        if above { return true; }
        i := i + 1;
      }
      ignored := Exact(p, isDir);
    }
  }

  /** Everything beneath an ignored directory is ignored. */
  lemma BeneathIgnored(glob: Glob, rules: seq<Rule>, p: Path, q: Path, isDir: bool)
    requires Match(glob, rules, p, true) && q != []
    ensures Match(glob, rules, p + q, isDir)
  {
    var pq := p + q;
    assert pq[..|p|] == p;
    if i :| 1 <= i < |p| && MatchExact(glob, rules, p[..i], true) {
      assert pq[..i] == p[..i];
    } else {
      assert MatchExact(glob, rules, pq[..|p|], true);
    }
  }

  lemma {:induction false} LaterRulesThatMiss(glob: Glob, rules: seq<Rule>, later: seq<Rule>, p: Path, isDir: bool)
    requires forall k | 0 <= k < |later| :: !Applies(glob, later[k], p, isDir)
    ensures MatchExact(glob, rules + later, p, isDir) == MatchExact(glob, rules, p, isDir)
    decreases |later|
  {
    if later == [] {
      assert rules + later == rules;
    } else {
      var init := later[..|later| - 1];
      assert (rules + later)[..|rules + later| - 1] == rules + init;
      LaterRulesThatMiss(glob, rules, init, p, isDir);
    }
  }

  /** Of the rules whose pattern is met, those for directories only where one is met, the last
      decides. */
  lemma {:induction false} LastMatchWins(glob: Glob, rules: seq<Rule>, p: Path, isDir: bool)
    ensures MatchExact(glob, rules, p, isDir) <==> exists k :: Decides(glob, rules, p, isDir, k) && !rules[k].negate
  {
    if rules != [] {
      var n := |rules| - 1;
      var init := rules[..n];
      if Applies(glob, rules[n], p, isDir) {
        assert Decides(glob, rules, p, isDir, n);
      } else {
        LastMatchWins(glob, init, p, isDir);
        forall k ensures Decides(glob, rules, p, isDir, k) <==> Decides(glob, init, p, isDir, k) {
          assert forall j | 0 <= j < n :: init[j] == rules[j];
          assert Decides(glob, rules, p, isDir, k) ==> k != n;
          if Decides(glob, init, p, isDir, k) && Decides(glob, rules, p, isDir, n) { assert false; }
        }
      }
    }
  }

  ghost predicate Decides(glob: Glob, rules: seq<Rule>, p: Path, isDir: bool, k: int) {
    && 0 <= k < |rules| && glob(rules[k].pattern, PathText(p)) && (rules[k].dirOnly ==> isDir)
    && forall j | k < j < |rules| && glob(rules[j].pattern, PathText(p)) :: rules[j].dirOnly && !isDir
  }

  /** A rule for directories ignores directories and what is beneath them, and no file that
      happens to be called like that. */
  lemma DirectoryRulesSpareFiles(glob: Glob, pattern: string, p: Path, isDir: bool)
    requires p != []
    ensures Match(glob, [Rule(pattern, false, true)], p, isDir)
            <==> || (exists i :: 1 <= i < |p| && glob(pattern, PathText(p[..i])))
                 || (isDir && glob(pattern, PathText(p)))
  {
    var r := Rule(pattern, false, true);
    assert [r][..0] == [];
    forall q, d ensures MatchExact(glob, [r], q, d) <==> d && glob(pattern, PathText(q)) {
      assert MatchExact(glob, [], q, d) == false;
    }
  }

  /** A directory that is ignored stays a wall: rules added after it that do not match the
      directory itself, negations included, bring nothing beneath it back. */
  lemma NegationsCannotRescue(glob: Glob, rules: seq<Rule>, later: seq<Rule>, p: Path, q: Path, isDir: bool)
    requires rules != [] && p != [] && q != [] && MatchExact(glob, rules, p, true)
    requires forall k | 0 <= k < |later| :: !Applies(glob, later[k], p, true)
    ensures Match(glob, rules + later, p + q, isDir)
  {
    LaterRulesThatMiss(glob, rules, later, p, true);
    BeneathIgnored(glob, rules + later, p, q, isDir);
  }

  /** A directory's contents in walk order: each entry with what is below it. */
  datatype Forest = Empty | Node(name: string, isDir: bool, below: Forest, next: Forest)

  datatype Entry = Entry(path: Path, isDir: bool)

  /** Every entry, parents before children. */
  function FullWalk(base: Path, f: Forest): seq<Entry>
    decreases f
  {
    match f
    case Empty => []
    case Node(name, isDir, below, next) =>
      [Entry(base + [name], isDir)]
      + (if isDir then FullWalk(base + [name], below) else [])
      + FullWalk(base, next)
  }

  /** The entries the walk is called on: it never goes below an ignored directory. */
  function Visited(glob: Glob, rules: seq<Rule>, base: Path, f: Forest): seq<Entry>
    decreases f
  {
    match f
    case Empty => []
    case Node(name, isDir, below, next) =>
      var p := base + [name];
      [Entry(p, isDir)]
      + (if isDir && !Match(glob, rules, p, true) then Visited(glob, rules, p, below) else [])
      + Visited(glob, rules, base, next)
  }

  function Kept(glob: Glob, rules: seq<Rule>, es: seq<Entry>): seq<Entry> {
    if es == [] then []
    else (if Match(glob, rules, es[0].path, es[0].isDir) then [] else [es[0]]) + Kept(glob, rules, es[1..])
  }

  lemma {:induction false} KeptAppend(glob: Glob, rules: seq<Rule>, a: seq<Entry>, b: seq<Entry>)
    ensures Kept(glob, rules, a + b) == Kept(glob, rules, a) + Kept(glob, rules, b)
  {
    if a == [] {
      assert a + b == b;
    } else {
      assert (a + b)[1..] == a[1..] + b;
      KeptAppend(glob, rules, a[1..], b);
    }
  }

  /** Nothing below an ignored directory survives filtering. */
  lemma {:induction false} NothingKeptBelow(glob: Glob, rules: seq<Rule>, top: Path, q: Path, f: Forest)
    requires Match(glob, rules, top, true)
    ensures Kept(glob, rules, FullWalk(top + q, f)) == []
    decreases f
  {
    if f.Node? {
      var base, p := top + q, top + q + [f.name];
      assert p == top + (q + [f.name]);
      BeneathIgnored(glob, rules, top, q + [f.name], f.isDir);
      var here, below := [Entry(p, f.isDir)], if f.isDir then FullWalk(p, f.below) else [];
      if f.isDir { NothingKeptBelow(glob, rules, top, q + [f.name], f.below); }
      NothingKeptBelow(glob, rules, top, q, f.next);
      KeptAppend(glob, rules, here + below, FullWalk(base, f.next));
      KeptAppend(glob, rules, here, below);
      KeptOne(glob, rules, here[0]);
    }
  }

  lemma KeptOne(glob: Glob, rules: seq<Rule>, e: Entry)
    ensures Kept(glob, rules, [e]) == if Match(glob, rules, e.path, e.isDir) then [] else [e]
  {
    assert [e][1..] == [];
  }

  /** Pruning is filtering: the walk that stays out of ignored directories keeps the very
      entries, in the same order, that walking everywhere and filtering would keep. */
  lemma {:induction false} PruningIsFiltering(glob: Glob, rules: seq<Rule>, base: Path, f: Forest)
    ensures Kept(glob, rules, Visited(glob, rules, base, f)) == Kept(glob, rules, FullWalk(base, f))
    decreases f
  {
    if f.Node? {
      var p := base + [f.name];
      var here := [Entry(p, f.isDir)];
      var ignored := Match(glob, rules, p, true);
      var below := if f.isDir && !ignored then Visited(glob, rules, p, f.below) else [];
      var all := if f.isDir then FullWalk(p, f.below) else [];
      PruningIsFiltering(glob, rules, base, f.next);
      if f.isDir {
        PruningIsFiltering(glob, rules, p, f.below);
        if ignored {
          assert p + [] == p;
          NothingKeptBelow(glob, rules, p, [], f.below);
        }
      }
      KeptAppend(glob, rules, here, below);
      KeptAppend(glob, rules, here, all);
      KeptAppend(glob, rules, here + below, Visited(glob, rules, base, f.next));
      KeptAppend(glob, rules, here + all, FullWalk(base, f.next));
    }
  }

  const GLOB_MAX_SCAN := 200_000

  /** A glob's result while the walk is under way. */
  datatype Tally = Tally(scanned: nat, ignored: nat, total: nat, matches: seq<Entry>, truncated: bool,
                         scanLimited: bool)

  const NO_TALLY := Tally(0, 0, 0, [], false, false)

  /** The walk's callback on one entry; a walk that hit the scan limit is over. */
  function OnEntry(glob: Glob, rules: seq<Rule>, wanted: Entry -> bool, limit: nat, maxScan: nat, t: Tally,
                   e: Entry): Tally {
    if t.scanLimited then t
    else
      var s := t.(scanned := t.scanned + 1);
      if s.scanned > maxScan then s.(scanLimited := true)
      else if Match(glob, rules, e.path, e.isDir) then s.(ignored := s.ignored + 1)
      else if !wanted(e) then s
      else if |s.matches| >= limit then s.(total := s.total + 1, truncated := true)
      else s.(total := s.total + 1, matches := s.matches + [e])
  }

  function OnEntries(glob: Glob, rules: seq<Rule>, wanted: Entry -> bool, limit: nat, maxScan: nat, t: Tally,
                     es: seq<Entry>): Tally
    decreases es
  {
    if es == [] then t
    else OnEntries(glob, rules, wanted, limit, maxScan, OnEntry(glob, rules, wanted, limit, maxScan, t, es[0]), es[1..])
  }

  function Wanted(wanted: Entry -> bool, es: seq<Entry>): seq<Entry> {
    if es == [] then [] else (if wanted(es[0]) then [es[0]] else []) + Wanted(wanted, es[1..])
  }

  function Take<T>(s: seq<T>, n: nat): seq<T> {
    if |s| <= n then s else s[..n]
  }

  /** The tally of a walk that has seen n entries, so many of them not ignored and these hits
      among those. */
  ghost predicate TallyFor(t: Tally, hits: seq<Entry>, n: nat, kept: nat, limit: nat) {
    && t.ignored + kept == n
    && t.matches == Take(hits, limit) && t.total == |hits| && (t.truncated <==> |hits| > limit)
    && !t.scanLimited && t.scanned == n
  }

  /** An entry, if the result should list it. */
  function HitOf(glob: Glob, rules: seq<Rule>, wanted: Entry -> bool, e: Entry): seq<Entry> {
    if !Match(glob, rules, e.path, e.isDir) && wanted(e) then [e] else []
  }

  function Hits(glob: Glob, rules: seq<Rule>, wanted: Entry -> bool, es: seq<Entry>): seq<Entry> {
    if es == [] then [] else HitOf(glob, rules, wanted, es[0]) + Hits(glob, rules, wanted, es[1..])
  }

  lemma {:induction false} HitsAreFiltered(glob: Glob, rules: seq<Rule>, wanted: Entry -> bool, es: seq<Entry>)
    ensures Hits(glob, rules, wanted, es) == Wanted(wanted, Kept(glob, rules, es))
  {
    if es != [] {
      HitsAreFiltered(glob, rules, wanted, es[1..]);
      var rest := Kept(glob, rules, es[1..]);
      assert ([es[0]] + rest)[1..] == rest && [] + rest == rest;
    }
  }

  lemma OneMore(glob: Glob, rules: seq<Rule>, wanted: Entry -> bool, limit: nat, maxScan: nat, t: Tally,
                hits: seq<Entry>, n: nat, kept: nat, e: Entry)
    requires TallyFor(t, hits, n, kept, limit) && n < maxScan
    ensures TallyFor(OnEntry(glob, rules, wanted, limit, maxScan, t, e), hits + HitOf(glob, rules, wanted, e), n + 1,
                     kept + if Match(glob, rules, e.path, e.isDir) then 0 else 1, limit)
  {
    assert hits + [] == hits;
    if |hits| >= limit { assert (hits + [e])[..limit] == hits[..limit]; }
  }

  lemma {:induction false} TallyOf(glob: Glob, rules: seq<Rule>, wanted: Entry -> bool, limit: nat, maxScan: nat,
                                   t: Tally, hits: seq<Entry>, n: nat, kept: nat, es: seq<Entry>)
    requires TallyFor(t, hits, n, kept, limit) && n + |es| <= maxScan
    ensures TallyFor(OnEntries(glob, rules, wanted, limit, maxScan, t, es),
                     hits + Hits(glob, rules, wanted, es), n + |es|, kept + |Kept(glob, rules, es)|, limit)
    decreases es
  {
    if es == [] {
      assert hits + [] == hits;
    } else {
      var hit, rest := HitOf(glob, rules, wanted, es[0]), Hits(glob, rules, wanted, es[1..]);
      OneMore(glob, rules, wanted, limit, maxScan, t, hits, n, kept, es[0]);
      TallyOf(glob, rules, wanted, limit, maxScan, OnEntry(glob, rules, wanted, limit, maxScan, t, es[0]),
              hits + hit, n + 1, kept + if Match(glob, rules, es[0].path, es[0].isDir) then 0 else 1, es[1..]);
      assert hits + hit + rest == hits + (hit + rest);
    }
  }

  lemma {:induction false} OnEntriesAppend(glob: Glob, rules: seq<Rule>, wanted: Entry -> bool, limit: nat,
                                           maxScan: nat, t: Tally, a: seq<Entry>, b: seq<Entry>)
    ensures OnEntries(glob, rules, wanted, limit, maxScan, t, a + b)
         == OnEntries(glob, rules, wanted, limit, maxScan, OnEntries(glob, rules, wanted, limit, maxScan, t, a), b)
    decreases a
  {
    if a == [] {
      assert a + b == b;
    } else {
      assert (a + b)[1..] == a[1..] + b;
      OnEntriesAppend(glob, rules, wanted, limit, maxScan, OnEntry(glob, rules, wanted, limit, maxScan, t, a[0]),
                      a[1..], b);
    }
  }

  /** A glob over a tree its scan limit covers returns the first matches of the filtered
      full walk, counts them all, and says truncated exactly when some are missing.  What it
      calls ignored is all it came by that the filter keeps out. */
  lemma GlobIsFiltering(glob: Glob, rules: seq<Rule>, wanted: Entry -> bool, limit: nat, base: Path, f: Forest)
    requires |Visited(glob, rules, base, f)| <= GLOB_MAX_SCAN
    ensures var r := OnEntries(glob, rules, wanted, limit, GLOB_MAX_SCAN, NO_TALLY, Visited(glob, rules, base, f));
            var hits := Wanted(wanted, Kept(glob, rules, FullWalk(base, f)));
            && r.matches == Take(hits, limit) && r.total == |hits| && (r.truncated <==> |hits| > limit)
            && !r.scanLimited && r.scanned == |Visited(glob, rules, base, f)|
            && r.ignored == r.scanned - |Kept(glob, rules, FullWalk(base, f))|
  {
    PruningIsFiltering(glob, rules, base, f);
    var es := Visited(glob, rules, base, f);
    TallyOf(glob, rules, wanted, limit, GLOB_MAX_SCAN, NO_TALLY, [], 0, 0, es);
    HitsAreFiltered(glob, rules, wanted, es);
    assert [] + Hits(glob, rules, wanted, es) == Hits(glob, rules, wanted, es);
  }

  lemma {:induction false} StoppedWalk(glob: Glob, rules: seq<Rule>, wanted: Entry -> bool, limit: nat, maxScan: nat,
                                       t: Tally, es: seq<Entry>)
    requires t.scanLimited
    ensures OnEntries(glob, rules, wanted, limit, maxScan, t, es) == t
    decreases es
  {
    if es != [] { StoppedWalk(glob, rules, wanted, limit, maxScan, t, es[1..]); }
  }

  /** A walk over more entries than it may scan reports on the first ones alone and says
      that it stopped. */
  lemma GlobStopsAtLimit(glob: Glob, rules: seq<Rule>, wanted: Entry -> bool, limit: nat, es: seq<Entry>)
    requires |es| > GLOB_MAX_SCAN
    ensures var r := OnEntries(glob, rules, wanted, limit, GLOB_MAX_SCAN, NO_TALLY, es);
            var hits := Hits(glob, rules, wanted, es[..GLOB_MAX_SCAN]);
            r.matches == Take(hits, limit) && r.total == |hits| && r.scanLimited && r.scanned == GLOB_MAX_SCAN + 1
  {
    var front, rest := es[..GLOB_MAX_SCAN], es[GLOB_MAX_SCAN..];
    var t := OnEntries(glob, rules, wanted, limit, GLOB_MAX_SCAN, NO_TALLY, front);
    TallyOf(glob, rules, wanted, limit, GLOB_MAX_SCAN, NO_TALLY, [], 0, 0, front);
    assert [] + Hits(glob, rules, wanted, front) == Hits(glob, rules, wanted, front);
    assert es == front + rest;
    OnEntriesAppend(glob, rules, wanted, limit, GLOB_MAX_SCAN, NO_TALLY, front, rest);
    StoppedWalk(glob, rules, wanted, limit, GLOB_MAX_SCAN,
                OnEntry(glob, rules, wanted, limit, GLOB_MAX_SCAN, t, rest[0]), rest[1..]);
  }

  /** Glob.Execute's walk. */
  class GlobWalk {
    const ignore: Ignore
    const wanted: Entry -> bool
    const limit: nat
    const maxScan: nat
    var res: Tally

    constructor (ignore: Ignore, wanted: Entry -> bool, limit: nat, maxScan: nat)
      ensures this.ignore == ignore && this.wanted == wanted && this.limit == limit && this.maxScan == maxScan
              && res == NO_TALLY
    {
      this.ignore, this.wanted, this.limit, this.maxScan, res := ignore, wanted, limit, maxScan, NO_TALLY;
    }

    /** The callback; skip tells the walk to stay out of this directory. */
    method OnPath(e: Entry) returns (skip: bool)
      modifies this
      requires !res.scanLimited
      ensures res == OnEntry(ignore.glob, ignore.rules, wanted, limit, maxScan, old(res), e)
      ensures !res.scanLimited ==> skip == (e.isDir && Match(ignore.glob, ignore.rules, e.path, true))
    {
      skip := false;
      res := res.(scanned := res.scanned + 1);
      if res.scanned > maxScan {
        res := res.(scanLimited := true);
        return;
      }
      var hidden := ignore.Matches(e.path, e.isDir);
      if hidden {
        res := res.(ignored := res.ignored + 1);
        return e.isDir;
      }
      if !wanted(e) { return; }
      res := res.(total := res.total + 1);
      if |res.matches| >= limit {
        res := res.(truncated := true);
        return;
      }
      res := res.(matches := res.matches + [e]);
    }

    method Walk(base: Path, f: Forest)
      modifies this
      ensures res == OnEntries(ignore.glob, ignore.rules, wanted, limit, maxScan, old(res),
                               Visited(ignore.glob, ignore.rules, base, f))
      decreases f
    {
      ghost var start := res;
      if res.scanLimited {
        StoppedWalk(ignore.glob, ignore.rules, wanted, limit, maxScan, start,
                    Visited(ignore.glob, ignore.rules, base, f));
        return;
      }
      if f.Node? {
        var e := Entry(base + [f.name], f.isDir);
        ghost var below := if f.isDir && !Match(ignore.glob, ignore.rules, e.path, true)
          then Visited(ignore.glob, ignore.rules, e.path, f.below) else [];
        ghost var next := Visited(ignore.glob, ignore.rules, base, f.next);
        var skip := OnPath(e);
        OneEntry(start, e);
        OnEntriesAppend(ignore.glob, ignore.rules, wanted, limit, maxScan, start, [e] + below, next);
        OnEntriesAppend(ignore.glob, ignore.rules, wanted, limit, maxScan, start, [e], below);
        if res.scanLimited {
          StoppedWalk(ignore.glob, ignore.rules, wanted, limit, maxScan, res, below);
          StoppedWalk(ignore.glob, ignore.rules, wanted, limit, maxScan, res, next);
          return;
        }
        if f.isDir && !skip { Walk(e.path, f.below); }
        Walk(base, f.next);
      }
    }

    lemma OneEntry(t: Tally, e: Entry)
      ensures OnEntries(ignore.glob, ignore.rules, wanted, limit, maxScan, t, [e])
           == OnEntry(ignore.glob, ignore.rules, wanted, limit, maxScan, t, e)
    {
      assert [e][1..] == [];
    }
  }
}
