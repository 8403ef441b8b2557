/** Paginated file views (internal/tools/truncate.go): what one page shows, and that
    following the pages shows the whole file. */
module Paging {
  import opened Text
  import Strings

  const MAX_LINES: nat := 2000
  const MAX_LINE_CHARS: nat := 2000
  const MAX_VIEW_BYTES: nat := 51200
  const LINE_TRUNCATION_MARKER := "\U{2026} [line truncated]"

  // ---- Lines ----

  function Normalized(content: string): string {
    Strings.Replace(content, "\r\n", "\n", -1)
  }

  /** A text without the carriage returns that stand right ahead of a line feed. */
  function WithoutReturns(s: string): string {
    if s == "" then ""
    else (if s[0] == '\r' && |s| > 1 && s[1] == '\n' then "" else [s[0]]) + WithoutReturns(s[1..])
  }

  /** Normalising drops those, and nothing else. */
  lemma NormalizedIs(content: string)
    ensures Normalized(content) == WithoutReturns(content)
  {
    ReplacedIs(content, -1);
  }

  lemma {:induction false} ReplacedIs(s: string, limit: int)
    requires limit < 0
    ensures Strings.Replace(s, "\r\n", "\n", limit) == WithoutReturns(s)
    decreases |s|
  {
    hide *;
    FirstReturn(s);
    ReplacedAtFirst(s, limit);
    match Strings.Find(s, "\r\n")
    case None =>
      NoReturns(s, |s|);
      WholeIsSlice(s);
    case Some(i) =>
      ReplacedIs(s[i + 2..], limit - 1);
      NoReturns(s, i);
      ReturnDropped(s, i);
  }

  ghost predicate ReturnAt(s: string, i: int) {
    0 <= i && i + 1 < |s| && s[i] == '\r' && s[i + 1] == '\n'
  }

  lemma ReturnOccurs(s: string, i: int)
    ensures ReturnAt(s, i) <==> Strings.OccursAt(s, "\r\n", i)
  {
    if 0 <= i && i + 2 <= |s| {
      assert s[i..i + 2] == [s[i], s[i + 1]];
    }
  }

  lemma FirstReturn(s: string)
    ensures var found := Strings.Find(s, "\r\n");
            match found
            case None => forall j :: !ReturnAt(s, j)
            case Some(i) => i + 2 <= |s| && ReturnAt(s, i) && forall j | j < i :: !ReturnAt(s, j)
  {
    hide Strings.Find;
    Strings.FindLeftmost(s, "\r\n");
    forall j ensures ReturnAt(s, j) <==> Strings.OccursAt(s, "\r\n", j) {
      ReturnOccurs(s, j);
    }
  }

  lemma ReplacedAtFirst(s: string, limit: int)
    requires limit < 0
    ensures Strings.Replace(s, "\r\n", "\n", limit)
            == match Strings.Find(s, "\r\n")
               case None => s
               case Some(i) => s[..i] + ("\n" + Strings.Replace(s[i + 2..], "\r\n", "\n", limit - 1))
  {
    hide Strings.Find;
    match Strings.Find(s, "\r\n")
    case None =>
    case Some(i) =>
      var rest := Strings.Replace(s[i + 2..], "\r\n", "\n", limit - 1);
      assert s[..i] + ("\n" + rest) == s[..i] + "\n" + rest;
  }

  lemma WholeIsSlice(s: string)
    ensures s[..|s|] + WithoutReturns(s[|s|..]) == s
  {
  }

  lemma ReturnDropped(s: string, i: nat)
    requires ReturnAt(s, i)
    ensures WithoutReturns(s[i..]) == "\n" + WithoutReturns(s[i + 2..])
  {
    var from := s[i..];
    assert from[1..] == s[i + 1..] && from[1..][1..] == s[i + 2..];
    assert WithoutReturns(from) == "" + WithoutReturns(from[1..]);
    assert from[1..][0] == '\n';
  }

  lemma {:induction false} NoReturns(s: string, i: nat)
    requires i <= |s| && forall j | j < i :: !ReturnAt(s, j)
    ensures WithoutReturns(s) == s[..i] + WithoutReturns(s[i..])
    decreases i
  {
    if i == 0 {
      assert s[0..] == s && "" + WithoutReturns(s) == WithoutReturns(s);
    } else {
      var last := i - 1;
      NoReturns(s, last);
      assert !ReturnAt(s, last);
      assert s[last..][1..] == s[i..] && s[last..][0] == s[last] && s[..i] == s[..last] + [s[last]];
      assert WithoutReturns(s[last..]) == [s[last]] + WithoutReturns(s[i..]);
    }
  }

  predicate EndsLine(s: string) {
    s != "" && s[|s| - 1] == '\n'
  }

  /** strings.TrimSuffix(s, "\n"). */
  function Body(s: string): string {
    if EndsLine(s) then s[..|s| - 1] else s
  }

  /** splitLines. */
  function SplitLines(content: string): seq<string> {
    if content == "" then []
    else
      var body := Body(Normalized(content));
      if body == "" then [""] else Strings.Split(body, "\n")
  }

  lemma PiecesHoldNoNewline(body: string, line: string)
    requires line in Strings.Split(body, "\n")
    ensures '\n' !in line
  {
    var pieces := Strings.Split(body, "\n");
    var k :| 0 <= k < |pieces| && pieces[k] == line;
    forall j | 0 <= j < |line| ensures line[j] != '\n' {
      Strings.PiecesAreClean(body, "\n", k, j);
      assert line[j..j + 1] == [line[j]];
    }
  }

  /** The lines are the content: joined, with the last terminator put back if there
      was one, they are the text again up to the kind of line ending, and no line
      holds a terminator. */
  lemma SplitLinesRoundTrip(content: string)
    requires content != ""
    ensures var s := Normalized(content);
            Join(SplitLines(content), "\n") + (if EndsLine(s) then "\n" else "") == s
    ensures forall line | line in SplitLines(content) :: '\n' !in line
  {
    var s := Normalized(content);
    var body := Body(s);
    assert s == body + if EndsLine(s) then "\n" else "";
    if body == "" {
      assert SplitLines(content) == [""];
    } else {
      Strings.CutJoinsBack(body, "\n");
      forall line | line in SplitLines(content) ensures '\n' !in line {
        PiecesHoldNoNewline(body, line);
      }
    }
  }

  predicate Long(line: string) {
    |line| > MAX_LINE_CHARS
  }

  /** clipRunes and the marker behind it. */
  function Clip(line: string): string {
    if Long(line) then line[..MAX_LINE_CHARS] + LINE_TRUNCATION_MARKER else line
  }

  lemma ShortLinesAreWhole(line: string)
    ensures !Long(line) ==> Clip(line) == line
  {
  }

  /** A line of more than 2000 characters is shown up to there, and says so. */
  lemma ClipIs(line: string)
    ensures |line| <= 2000 ==> Clip(line) == line
    ensures |line| > 2000 ==> Clip(line) == line[..2000] + "\U{2026} [line truncated]"
  {
  }

  /** However wide its characters are, a clipped line always fits a page. */
  lemma ClippedLineFits(line: string)
    ensures ByteLen(Clip(line)) <= MAX_VIEW_BYTES
  {
    ByteLenBounds(Clip(line));
  }

  /** Lines from (inclusive) to (exclusive), counted from zero, each clipped. */
  function Clipped(all: seq<string>, from: nat, to: nat): (lines: seq<string>)
    requires from <= to <= |all|
    ensures |lines| == to - from
  {
    if from == to then [] else Clipped(all, from, to - 1) + [Clip(all[to - 1])]
  }

  lemma {:induction false} ClippedAt(all: seq<string>, from: nat, to: nat, k: nat)
    requires from <= k < to <= |all|
    ensures Clipped(all, from, to)[k - from] == Clip(all[k])
  {
    if k < to - 1 {
      ClippedAt(all, from, to - 1, k);
    }
  }

  function BytesOf(all: seq<string>, from: nat, to: nat): nat
    requires from <= to <= |all|
  {
    if from == to then 0 else BytesOf(all, from, to - 1) + ByteLen(Clip(all[to - 1]))
  }

  function LongIn(all: seq<string>, from: nat, to: nat): nat
    requires from <= to <= |all|
  {
    if from == to then 0 else LongIn(all, from, to - 1) + if Long(all[to - 1]) then 1 else 0
  }

  lemma {:induction false} BytesOfAreBytes(all: seq<string>, from: nat, to: nat)
    requires from <= to <= |all|
    ensures BytesOf(all, from, to) == ByteLen(Concat(Clipped(all, from, to)))
  {
    if from < to {
      BytesOfAreBytes(all, from, to - 1);
      var line := Clip(all[to - 1]);
      ConcatAppend(Clipped(all, from, to - 1), [line]);
      assert Concat([line]) == line + Concat([]) == line;
      ByteLenAppend(Concat(Clipped(all, from, to - 1)), line);
    }
  }

  lemma {:induction false} BytesGrow(all: seq<string>, from: nat, mid: nat, to: nat)
    requires from <= mid <= to <= |all|
    ensures BytesOf(all, from, mid) <= BytesOf(all, from, to)
  {
    if mid < to {
      BytesGrow(all, from, mid, to - 1);
    }
  }

  // ---- One page ----

  datatype View = View(
    lines: seq<string>,
    offset: int,
    totalLines: nat,
    truncated: bool,
    longLines: nat,
    byteLimited: bool)

  function NextOffset(v: View): int {
    if !v.truncated then 0 else v.offset + |v.lines|
  }

  function Budget(limit: int): (n: nat)
    ensures 1 <= n <= MAX_LINES
  {
    if limit <= 0 || limit > MAX_LINES then MAX_LINES else limit
  }

  /** What a page of a file's lines promises: it starts where it was asked to, shows
      at least one line if there is one, clipped and otherwise unaltered, keeps within
      both limits, and stops early only where the next line would break one of them.
      Lines are counted as long when they are clipped, and the count includes a long
      line that then did not fit. */
  ghost predicate IsPage(all: seq<string>, offset: int, limit: int, v: View) {
    var start := if offset < 1 then 1 else offset;
    var from, end := start - 1, start - 1 + |v.lines|;
    && v.offset == start && v.totalLines == |all|
    && if from >= |all| then v == View([], start, |all|, false, 0, false)
       else
         && from < end <= |all| && v.lines == Clipped(all, from, end)
         && |v.lines| <= Budget(limit)
         && BytesOf(all, from, end) <= MAX_VIEW_BYTES
         && (v.truncated <==> end < |all|)
         && (v.byteLimited <==> v.truncated && |v.lines| < Budget(limit))
         && (v.byteLimited ==> BytesOf(all, from, end + 1) > MAX_VIEW_BYTES)
         && v.longLines == LongIn(all, from, if v.byteLimited then end + 1 else end)
  }

  /** Every page is small, counted on the text itself, whatever its lines hold. */
  lemma PagesAreSmall(all: seq<string>, offset: int, limit: int, v: View)
    requires IsPage(all, offset, limit, v)
    ensures ByteLen(Concat(v.lines)) <= MAX_VIEW_BYTES && |v.lines| <= MAX_LINES
  {
    if v.lines != [] {
      BytesOfAreBytes(all, v.offset - 1, v.offset - 1 + |v.lines|);
    }
  }

  /** A caller's limit holds from 1 to 2000 lines, and any other counts as 2000; a page that
      stops early has that many lines unless the next one was too much. */
  lemma LimitHolds(all: seq<string>, offset: int, limit: int, v: View)
    requires IsPage(all, offset, limit, v)
    ensures 1 <= limit <= 2000 ==> |v.lines| <= limit
    ensures v.truncated && !v.byteLimited ==> |v.lines| == if 1 <= limit <= 2000 then limit else 2000
  {
  }

  /** The promise leaves no choice: file, offset and limit determine the page. */
  lemma PageIsDetermined(all: seq<string>, offset: int, limit: int, v: View, w: View)
    requires IsPage(all, offset, limit, v) && IsPage(all, offset, limit, w)
    ensures v == w
  {
    PageIsLongest(all, offset, limit, v, w);
    PageIsLongest(all, offset, limit, w, v);
  }

  lemma PageIsLongest(all: seq<string>, offset: int, limit: int, v: View, w: View)
    requires IsPage(all, offset, limit, v) && IsPage(all, offset, limit, w)
    ensures |v.lines| >= |w.lines|
  {
    hide ByteLen, Clip, LongIn, Clipped;
    if |v.lines| < |w.lines| {
      var from := v.offset - 1;
      BytesGrow(all, from, from + |v.lines| + 1, from + |w.lines|);
    }
  }

  /** Where a page that starts at from ends, worked out from the lines and the limit: it
      takes lines until there are no more, or enough, or the next one is too much. */
  function PageEnd(all: seq<string>, from: nat, i: nat, most: nat): (end: nat)
    requires from <= i <= |all|
    ensures i <= end <= |all|
    decreases |all| - i
  {
    if i == |all| || i - from >= most then i
    else if i > from && BytesOf(all, from, i + 1) > MAX_VIEW_BYTES then i
    else PageEnd(all, from, i + 1, most)
  }

  lemma {:induction false} PagesEndThere(all: seq<string>, offset: int, limit: int, v: View, i: nat)
    requires IsPage(all, offset, limit, v) && v.offset <= |all|
    requires v.offset - 1 <= i <= v.offset - 1 + |v.lines|
    ensures PageEnd(all, v.offset - 1, i, Budget(limit)) == v.offset - 1 + |v.lines|
    decreases |all| - i
  {
    hide ByteLen, Clip, Clipped, LongIn;
    var from, end := v.offset - 1, v.offset - 1 + |v.lines|;
    if i < end {
      BytesGrow(all, from, i + 1, end);
      PagesEndThere(all, offset, limit, v, i + 1);
    }
  }

  /** The footer reports longLines as lines that "were shortened".  That is the number
      of shortened lines on the page unless there is another line, the page could take it
      by the line limit, and it is long. */
  lemma LongLinesAreOnThePageIff(all: seq<string>, offset: int, limit: int, v: View)
    requires IsPage(all, offset, limit, v) && offset <= |all| && all != []
    ensures var from := if offset < 1 then 0 else offset - 1;
            var end := PageEnd(all, from, from, Budget(limit));
            && end == from + |v.lines|
            && (v.longLines == LongIn(all, from, end)
                <==> !(end < |all| && end - from < Budget(limit) && Long(all[end])))
  {
    hide *;
    PageIsInFile(all, offset, limit, v);
    LongLinesCount(all, offset, limit, v);
    PagesEndThere(all, offset, limit, v, v.offset - 1);
  }

  lemma PageIsInFile(all: seq<string>, offset: int, limit: int, v: View)
    requires IsPage(all, offset, limit, v) && offset <= |all| && all != []
    ensures v.offset == (if offset < 1 then 1 else offset) && v.offset - 1 + |v.lines| <= |all|
    ensures v.byteLimited <==> v.offset - 1 + |v.lines| < |all| && |v.lines| < Budget(limit)
  {
    hide BytesOf, LongIn, Clipped;
  }

  lemma LongLinesCount(all: seq<string>, offset: int, limit: int, v: View)
    requires IsPage(all, offset, limit, v) && offset <= |all| && all != []
    ensures var from, end := v.offset - 1, v.offset - 1 + |v.lines|;
            && end <= |all| && (v.byteLimited ==> end < |all|)
            && v.longLines == LongIn(all, from, end) + if v.byteLimited && Long(all[end]) then 1 else 0
  {
    hide BytesOf, Clipped, Long;
    var from, end := v.offset - 1, v.offset - 1 + |v.lines|;
    if v.byteLimited {
      assert LongIn(all, from, end + 1) == LongIn(all, from, end) + if Long(all[end]) then 1 else 0;
    }
  }

  function WideLine(): (line: string)
    ensures |line| == 2001
  {
    seq(2001, k => '\U{1F600}')
  }

  function WideFile(n: nat): seq<string> {
    seq(n, k => WideLine())
  }

  lemma {:induction false} WideBytes(n: nat, k: nat)
    requires k <= n
    ensures BytesOf(WideFile(n), 0, k) == k * ByteLen(Clip(WideLine())) && LongIn(WideFile(n), 0, k) == k
  {
    hide ByteLen, Clip;
    if k > 0 {
      WideBytes(n, k - 1);
    }
  }

  lemma {:induction false} WideRunes(s: string)
    requires forall k | 0 <= k < |s| :: s[k] == '\U{1F600}'
    ensures ByteLen(s) == 4 * |s|
  {
    if s != [] {
      WideRunes(s[1..]);
    }
  }

  lemma WideLineBytes()
    ensures 8000 <= ByteLen(Clip(WideLine())) <= 8072
  {
    WideRunes(WideLine()[..2000]);
    ByteLenAppend(WideLine()[..2000], LINE_TRUNCATION_MARKER);
    ByteLenBounds(LINE_TRUNCATION_MARKER);
  }

  /** A file of seven such lines: six fit, all six are shortened, seven are reported. */
  lemma LongLinesCanOvercount()
    ensures IsPage(WideFile(7), 1, 0, View(Clipped(WideFile(7), 0, 6), 1, 7, true, 7, true))
    ensures LongIn(WideFile(7), 0, 6) == 6
  {
    hide ByteLen, Clip, BytesOf, LongIn, Clipped;
    WideLineBytes();
    WideBytes(7, 6);
    WideBytes(7, 7);
    assert |WideFile(7)| == 7;
  }

  /** BuildView. */
  method BuildView(content: string, offset: int, limit: int) returns (v: View)
    ensures IsPage(SplitLines(content), offset, limit, v)
  {
    v := ViewOf(SplitLines(content), offset, limit);
  }

  method ViewOf(all: seq<string>, offset: int, limit: int) returns (v: View)
    ensures IsPage(all, offset, limit, v)
  {
    hide ByteLen, Clip;
    var start := if offset < 1 then 1 else offset;
    var most := if limit <= 0 || limit > MAX_LINES then MAX_LINES else limit;
    var lines, truncated, longLines, byteLimited := [], false, 0, false;
    if start > |all| {
      return View(lines, start, |all|, truncated, longLines, byteLimited);
    }
    var from := start - 1;
    var budget: int := MAX_VIEW_BYTES;
    var i := from;
    while i < |all|
      invariant from <= i <= |all|
      invariant !truncated && !byteLimited
      invariant lines == Clipped(all, from, i) && |lines| <= most
      invariant budget == MAX_VIEW_BYTES - BytesOf(all, from, i) >= 0
      invariant longLines == LongIn(all, from, i)
    {
      if |lines| >= most {
        truncated := true;
        break;
      }
      var line := all[i];
      ClippedLineFits(line);
      ShortLinesAreWhole(line);
      if Long(line) {
        line := Clip(line);
        longLines := longLines + 1;
      }
      if |lines| > 0 && ByteLen(line) > budget {
        truncated, byteLimited := true, true;
        break;
      }
      budget := budget - ByteLen(line);
      lines := lines + [line];
      i := i + 1;
    }
    if start - 1 + |lines| < |all| {
      truncated := true;
    }
    v := View(lines, start, |all|, truncated, longLines, byteLimited);
  }

  // ---- All pages ----

  lemma {:induction false} ClippedJoins(all: seq<string>, from: nat, mid: nat, to: nat)
    requires from <= mid <= to <= |all|
    ensures Clipped(all, from, mid) + Clipped(all, mid, to) == Clipped(all, from, to)
  {
    if mid < to {
      ClippedJoins(all, from, mid, to - 1);
    }
  }

  /** Reads a whole file the way the footer of each page tells the model to: from the
      first line, then from NextOffset until there is none, with whatever limit each
      call asks for.  Every line is shown once, clipped, in order. */
  method ReadThrough(content: string, limits: nat -> int) returns (shown: seq<string>, pages: nat)
    ensures var all := SplitLines(content); shown == Clipped(all, 0, |all|)
    ensures pages <= |SplitLines(content)| + 1
  {
    hide ByteLen, Clip, SplitLines;
    var all := SplitLines(content);
    shown, pages := [], 0;
    var offset := 1;
    while offset != 0
      invariant 0 <= offset <= |all| + 1 && (offset > 1 ==> offset <= |all|)
      invariant offset != 0 ==> shown == Clipped(all, 0, offset - 1) && pages <= offset - 1
      invariant offset == 0 ==> shown == Clipped(all, 0, |all|) && pages <= |all| + 1
      decreases if offset == 0 then 0 else |all| + 2 - offset
    {
      var v := BuildView(content, offset, limits(pages));
      if offset <= |all| {
        ClippedJoins(all, 0, offset - 1, offset - 1 + |v.lines|);
      }
      shown := shown + v.lines;
      pages := pages + 1;
      offset := NextOffset(v);
    }
  }

  /** The same for any list of pages of one file, however they were produced: each
      starts where the one before says to continue, and the last says there is no
      more. */
  ghost predicate Chained(all: seq<string>, offset: int, pages: seq<View>, limits: seq<int>)
    requires |limits| == |pages|
    decreases |pages|
  {
    if pages == [] then offset == 0
    else
      && offset > 0 && IsPage(all, offset, limits[0], pages[0])
      && Chained(all, NextOffset(pages[0]), pages[1..], limits[1..])
  }

  function Shown(pages: seq<View>): seq<string> {
    if pages == [] then [] else pages[0].lines + Shown(pages[1..])
  }

  lemma PageSpans(all: seq<string>, offset: int, limit: int, v: View)
    requires 0 < offset <= |all| + 1 && IsPage(all, offset, limit, v)
    ensures var end := offset - 1 + |v.lines|;
            && end <= |all| && v.lines == Clipped(all, offset - 1, end)
            && NextOffset(v) == (if end < |all| then end + 1 else 0)
            && (end < |all| ==> NextOffset(v) > offset)
  {
    hide BytesOf, LongIn;
  }

  /** Put together, the pages are the clipped rest of the file. */
  lemma {:induction false} PagesCoverTheFile(all: seq<string>, offset: int, pages: seq<View>, limits: seq<int>)
    requires |limits| == |pages| && 0 < offset <= |all| + 1 && Chained(all, offset, pages, limits)
    ensures Shown(pages) == Clipped(all, offset - 1, |all|)
    decreases |pages|
  {
    hide IsPage, Clipped, NextOffset;
    var v := pages[0];
    PageSpans(all, offset, limits[0], v);
    var end := offset - 1 + |v.lines|;
    if end < |all| {
      PagesCoverTheFile(all, end + 1, pages[1..], limits[1..]);
      ClippedJoins(all, offset - 1, end, |all|);
    } else {
      assert pages[1..] == [];
      assert v.lines + [] == v.lines;
    }
  }
}
