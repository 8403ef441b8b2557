/** From lines of a .gitignore to rules (internal/workspace/ignore.go, CompileIgnore), and
    what becomes of the rules that are always there. */
module IgnoreRules {
  import opened Wrappers
  import opened IgnoreWalk

  predicate Blank(c: char) {
    c == ' ' || c == '\t'
  }

  predicate Blanks(s: string) {
    forall k | 0 <= k < |s| :: Blank(s[k])
  }

  /** strings.TrimRight(line, " \t"). */
  function TrimBlanks(line: string): string {
    if line != "" && Blank(line[|line| - 1]) then TrimBlanks(line[..|line| - 1]) else line
  }

  predicate EndsSlash(s: string) {
    s != "" && s[|s| - 1] == '/'
  }

  function WithoutPrefix(s: string): string {
    if s != "" && s[0] == '/' then s[1..] else s
  }

  /** What is left of a line once blanks and "!" are off. */
  function CompileBody(negate: bool, u: string): Option<Rule> {
    if u == "" then None
    else
      var dirOnly := EndsSlash(u);
      var v := if dirOnly then u[..|u| - 1] else u;
      var core := WithoutPrefix(v);
      if core == "" then None else Some(Rule(if '/' in v then core else "**/" + core, negate, dirOnly))
  }

  /** compileRule. */
  function CompileRule(line: string): Option<Rule> {
    var t := TrimBlanks(line);
    if t == "" || t[0] == '#' then None
    else if t[0] == '!' then CompileBody(true, t[1..])
    else CompileBody(false, t)
  }

  function CompileAll(lines: seq<string>): seq<Rule> {
    if lines == [] then []
    else
      CompileAll(lines[..|lines| - 1])
      + match CompileRule(lines[|lines| - 1]) case Some(r) => [r] case None => []
  }

  /** CompileIgnore. */
  method CompileIgnore(lines: seq<string>) returns (rules: seq<Rule>)
    ensures rules == CompileAll(lines)
  {
    rules := [];
    for i := 0 to |lines|
      invariant rules == CompileAll(lines[..i])
    {
      assert lines[..i + 1][..i] == lines[..i];
      var r := CompileRule(lines[i]);
      if r.Some? {
        rules := rules + [r.value];
      }
    }
    assert lines[..|lines|] == lines;
  }

  lemma {:induction false} TrimBlanksDrops(s: string, blanks: string)
    requires Blanks(blanks) && (s == "" || !Blank(s[|s| - 1]))
    ensures TrimBlanks(s + blanks) == s
  {
    if blanks == "" {
      assert s + blanks == s;
    } else {
      assert (s + blanks)[..|s + blanks| - 1] == s + blanks[..|blanks| - 1];
      TrimBlanksDrops(s, blanks[..|blanks| - 1]);
    }
  }

  function WrittenBody(rooted: bool, core: string, dirOnly: bool): string {
    (if rooted then "/" else "") + core + (if dirOnly then "/" else "")
  }

  /** How a rule is written: "!" to negate, a leading "/" to tie it to the root, the
      pattern, a trailing "/" for directories only, and blanks nobody sees. */
  function Written(negate: bool, rooted: bool, core: string, dirOnly: bool, blanks: string): string {
    (if negate then "!" else "") + WrittenBody(rooted, core, dirOnly) + blanks
  }

  /** A pattern that none of the other marks can be mistaken for. */
  predicate Plainly(negate: bool, rooted: bool, core: string, dirOnly: bool) {
    && core != "" && core[0] != '/'
    && (!negate && !rooted ==> core[0] != '!' && core[0] != '#')
    && (!dirOnly ==> core[|core| - 1] != '/' && !Blank(core[|core| - 1]))
  }

  /** Reading back what was written: a pattern matches at any depth unless a slash stands
      in it or before it. */
  lemma RuleRoundTrip(negate: bool, rooted: bool, core: string, dirOnly: bool, blanks: string)
    requires Plainly(negate, rooted, core, dirOnly) && Blanks(blanks)
    ensures CompileRule(Written(negate, rooted, core, dirOnly, blanks))
            == Some(Rule(if rooted || '/' in core then core else "**/" + core, negate, dirOnly))
  {
    BodyRoundTrip(negate, rooted, core, dirOnly);
    BodyEnds(negate, rooted, core, dirOnly);
    hide WrittenBody, CompileBody, CompileRule, TrimBlanks, Blank, Blanks, Plainly;
    MarkRoundTrip(negate, WrittenBody(rooted, core, dirOnly), blanks);
  }

  lemma BodyEnds(negate: bool, rooted: bool, core: string, dirOnly: bool)
    requires Plainly(negate, rooted, core, dirOnly)
    ensures var u := WrittenBody(rooted, core, dirOnly);
            u != "" && !Blank(u[|u| - 1]) && (!negate ==> u[0] != '!' && u[0] != '#')
  {
  }

  lemma MarkRoundTrip(negate: bool, u: string, blanks: string)
    requires u != "" && !Blank(u[|u| - 1]) && (!negate ==> u[0] != '!' && u[0] != '#') && Blanks(blanks)
    ensures CompileRule((if negate then "!" else "") + u + blanks) == CompileBody(negate, u)
  {
    hide CompileBody;
    var t := (if negate then "!" else "") + u;
    TrimBlanksDrops(t, blanks);
    hide TrimBlanks, Blanks, Blank;
    if negate { assert t[1..] == u; } else { assert t == u; }
  }

  lemma BodyRoundTrip(negate: bool, rooted: bool, core: string, dirOnly: bool)
    requires core != "" && core[0] != '/' && (!dirOnly ==> core[|core| - 1] != '/')
    ensures CompileBody(negate, WrittenBody(rooted, core, dirOnly))
            == Some(Rule(if rooted || '/' in core then core else "**/" + core, negate, dirOnly))
  {
    var v := (if rooted then "/" else "") + core;
    var u := v + if dirOnly then "/" else "";
    assert EndsSlash(u) == dirOnly;
    assert (if dirOnly then u[..|u| - 1] else u) == v;
    assert '/' in v <==> rooted || '/' in core by {
      if rooted { assert v[0] == '/'; } else { assert v == core; }
    }
    assert WithoutPrefix(v) == core by {
      if rooted { assert v[1..] == core; } else { assert v == core; }
    }
  }

  lemma NoBodyIff(negate: bool, u: string)
    ensures CompileBody(negate, u) == None <==> u == "" || u == "/" || u == "//"
  {
    if EndsSlash(u) {
      var v := u[..|u| - 1];
      assert u == v + "/";
      assert WithoutPrefix(v) == "" <==> v == "" || v == "/";
    }
  }

  /** The lines that make no rule: blank ones, comments, and those that name nothing. */
  lemma NoRuleIff(line: string)
    ensures CompileRule(line) == None
            <==> var t := TrimBlanks(line);
                 || t == "" || t[0] == '#'
                 || t == "!" || t == "/" || t == "!" + "/" || t == "//" || t == "!" + "//"
  {
    var t := TrimBlanks(line);
    if t != "" {
      NoBodyIff(true, t[1..]);
      NoBodyIff(false, t);
      assert t[0] == '!' ==> t == "!" + t[1..];
      assert ("!" + "/")[1..] == "/" && ("!" + "//")[1..] == "//";
    }
    hide CompileBody;
  }

  // ---- The rules that are always there ----

  const GIT := ".git"
  const HARNESS := ".harness"
  const ALWAYS_IGNORED: seq<string> := [GIT + "/", HARNESS + "/"]

  predicate BuiltIn(name: string) {
    name == GIT || name == HARNESS
  }

  function NameRule(negate: bool, name: string): Rule {
    Rule("**/" + name, negate, true)
  }

  ghost predicate SomeApplies(glob: Glob, rules: seq<Rule>, p: Path, isDir: bool) {
    exists i :: 0 <= i < |rules| && Applies(glob, rules[i], p, isDir)
  }

  /** The last match wins: rules that come first decide only where no later one applies. */
  lemma {:induction false} LaterRulesDecide(glob: Glob, first: seq<Rule>, later: seq<Rule>, p: Path, isDir: bool)
    ensures MatchExact(glob, first + later, p, isDir)
            == if SomeApplies(glob, later, p, isDir) then MatchExact(glob, later, p, isDir)
               else MatchExact(glob, first, p, isDir)
    decreases |later|
  {
    if later == [] {
      assert first + later == first;
    } else {
      var n := |later| - 1;
      assert (first + later)[..|first| + n] == first + later[..n];
      LaterRulesDecide(glob, first, later[..n], p, isDir);
      if SomeApplies(glob, later[..n], p, isDir) {
        var i :| 0 <= i < n && Applies(glob, later[..n][i], p, isDir);
        assert Applies(glob, later[i], p, isDir);
      }
      if !Applies(glob, later[n], p, isDir) && SomeApplies(glob, later, p, isDir) {
        var i :| 0 <= i < |later| && Applies(glob, later[i], p, isDir);
        assert Applies(glob, later[..n][i], p, isDir);
      }
    }
  }

  lemma {:induction false} CompileAppend(a: seq<string>, b: seq<string>)
    ensures CompileAll(a + b) == CompileAll(a) + CompileAll(b)
    decreases |b|
  {
    if b == [] {
      assert a + b == a;
    } else {
      assert (a + b)[..|a + b| - 1] == a + b[..|b| - 1];
      CompileAppend(a, b[..|b| - 1]);
    }
  }

  /** The two rules as doublestar sees them: "**" stands for any directories, none
      included, and a name matches only itself. */
  ghost predicate GlobKnowsNames(glob: Glob) {
    forall a, b, q | BuiltIn(a) && BuiltIn(b) :: glob("**/" + a, PathText(q + [b])) <==> a == b
  }

  lemma CompileName(negate: bool, name: string)
    requires BuiltIn(name)
    ensures CompileRule((if negate then "!" else "") + (name + "/")) == Some(NameRule(negate, name))
  {
    assert Plainly(negate, false, name, true) && '/' !in name;
    assert Written(negate, false, name, true, "") == (if negate then "!" else "") + (name + "/");
    hide CompileRule, Written, Plainly;
    RuleRoundTrip(negate, false, name, true, "");
  }

  lemma CompileOne(lines: seq<string>, line: string, r: Rule)
    requires CompileRule(line) == Some(r)
    ensures CompileAll(lines + [line]) == CompileAll(lines) + [r]
  {
    hide CompileRule;
    assert (lines + [line])[..|lines|] == lines;
  }

  lemma CompileAlways()
    ensures CompileAll(ALWAYS_IGNORED) == [NameRule(false, GIT), NameRule(false, HARNESS)]
  {
    hide CompileRule, NameRule;
    var git, harness := GIT + "/", HARNESS + "/";
    assert "" + git == git && "" + harness == harness;
    CompileName(false, GIT);
    CompileName(false, HARNESS);
    CompileOne([], git, NameRule(false, GIT));
    CompileOne([] + [git], harness, NameRule(false, HARNESS));
    assert ALWAYS_IGNORED == [] + [git] + [harness];
  }

  lemma BuiltInRules(glob: Glob, above: Path, name: string)
    requires GlobKnowsNames(glob) && BuiltIn(name)
    ensures MatchExact(glob, [NameRule(false, GIT), NameRule(false, HARNESS)], above + [name], true)
  {
    var always := [NameRule(false, GIT), NameRule(false, HARNESS)];
    assert BuiltIn(GIT) && BuiltIn(HARNESS);
    assert always[..1] == [always[0]] && always[..1][..0] == [];
    assert glob(always[0].pattern, PathText(above + [name])) <==> GIT == name;
    assert glob(always[1].pattern, PathText(above + [name])) <==> HARNESS == name;
    hide GlobKnowsNames;
  }

  /** Beneath a directory that is ignored. */
  ghost predicate Beneath(glob: Glob, rules: seq<Rule>, p: Path) {
    exists i :: 1 <= i < |p| && MatchExact(glob, rules, p[..i], true)
  }

  /** The built-in rules are said to hold whatever the .gitignore says.  They come first
      and the last match wins, so wherever such a directory is, it is ignored exactly
      unless the last line of the .gitignore that applies to it is a negation, or it lies
      beneath an ignored directory anyway. */
  lemma AlwaysIgnoredIff(glob: Glob, lines: seq<string>, above: Path, name: string)
    requires GlobKnowsNames(glob) && BuiltIn(name)
    ensures var user, all, p := CompileAll(lines), CompileAll(ALWAYS_IGNORED + lines), above + [name];
            Match(glob, all, p, true)
            <==> Beneath(glob, all, p) || !(SomeApplies(glob, user, p, true) && !MatchExact(glob, user, p, true))
  {
    CompileAlways();
    CompileAppend(ALWAYS_IGNORED, lines);
    BuiltInRules(glob, above, name);
    LaterRulesDecide(glob, CompileAll(ALWAYS_IGNORED), CompileAll(lines), above + [name], true);
    hide CompileAll, MatchExact, SomeApplies;
  }

  /** One line of a .gitignore takes .git, or .harness, out of the ignored directories. */
  lemma AlwaysIgnoredCanBeNegated(glob: Glob, name: string)
    requires GlobKnowsNames(glob) && BuiltIn(name)
    ensures !Match(glob, CompileAll(ALWAYS_IGNORED + ["!" + (name + "/")]), [name], true)
  {
    var line, r := "!" + (name + "/"), NameRule(true, name);
    assert [] + [name] == [name];
    assert glob("**/" + name, PathText([] + [name]));
    hide GlobKnowsNames, BuiltIn;
    CompileName(true, name);
    hide CompileRule;
    CompileOne([], line, r);
    assert [] + [line] == [line] && [] + [r] == [r];
    assert Applies(glob, [r][0], [name], true);
    AlwaysIgnoredIff(glob, [line], [], name);
  }
}
