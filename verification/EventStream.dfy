/** Reading and printing event streams (internal/upstream/sse.go, internal/server/stream.go),
    against the line format of the WHATWG HTML Living Standard, sections 9.2.5 and 9.2.6. */
module EventStream {
  import opened Wrappers
  import opened Text

  const MAX_EVENT_BYTES := 16777216

  datatype Format = Auto | Sse | Ndjson

  const DONE := "[DONE]"

  // ---- Lines ----

  function DropCR(s: string): string {
    if s != "" && s[|s| - 1] == '\r' then s[..|s| - 1] else s
  }

  /** Lines as bufio hands them out: ended by LF or CRLF, the last one perhaps by nothing. */
  function GoLines(acc: string, s: string): seq<string>
    decreases s
  {
    if s == "" then (if acc == "" then [] else [acc])
    else if s[0] == '\n' then [DropCR(acc)] + GoLines("", s[1..])
    else GoLines(acc + [s[0]], s[1..])
  }

  /** Lines as the standard has them: ended by CRLF, LF or CR. */
  function StdLines(acc: string, s: string): seq<string>
    decreases s
  {
    if s == "" then (if acc == "" then [] else [acc])
    else if s[0] == '\n' then [acc] + StdLines("", s[1..])
    else if s[0] == '\r' then [acc] + StdLines("", if |s| > 1 && s[1] == '\n' then s[2..] else s[1..])
    else StdLines(acc + [s[0]], s[1..])
  }

  /** No carriage return without its line feed. */
  ghost predicate PairedCR(s: string) {
    forall i | 0 <= i < |s| && s[i] == '\r' :: i + 1 < |s| && s[i + 1] == '\n'
  }

  lemma PairedCRTail(s: string, k: nat)
    requires PairedCR(s) && k <= |s|
    ensures PairedCR(s[k..])
  {
  }

  lemma {:induction false} LinesAgree(acc: string, s: string)
    requires PairedCR(s) && '\r' !in acc
    ensures GoLines(acc, s) == StdLines(acc, s)
    decreases s
  {
    if s != "" {
      PairedCRTail(s, 1);
      if s[0] == '\n' {
        LinesAgree("", s[1..]);
      } else if s[0] == '\r' {
        PairedCRTail(s, 2);
        assert s[1..][0] == '\n' && s[1..][1..] == s[2..];
        assert DropCR(acc + ['\r']) == acc;
        LinesAgree("", s[2..]);
      } else {
        LinesAgree(acc + [s[0]], s[1..]);
      }
    }
  }

  /** One result of bufio.ReadLine: a piece of a line, and whether more of it follows. */
  datatype Piece = Piece(chunk: string, more: bool)

  datatype Read = Line(text: string, rest: seq<Piece>) | End | TooBig

  /** readLine with buf holding the pieces seen so far; begun says there were any. */
  function ReadLine(buf: string, begun: bool, pieces: seq<Piece>): Read
    decreases pieces
  {
    if pieces == [] then (if buf != "" then Line(buf, []) else End)
    else
      var p, rest := pieces[0], pieces[1..];
      if !p.more && !begun then Line(p.chunk, rest)
      else if ByteLen(buf + p.chunk) > MAX_EVENT_BYTES then TooBig
      else if !p.more then Line(buf + p.chunk, rest)
      else ReadLine(buf + p.chunk, true, rest)
  }

  lemma ReadLineShrinks(buf: string, begun: bool, pieces: seq<Piece>)
    requires pieces != [] && ReadLine(buf, begun, pieces).Line?
    ensures |ReadLine(buf, begun, pieces).rest| < |pieces|
    decreases pieces
  {
  }

  /** The pieces are one line, cut anywhere. */
  ghost predicate Cuts(pieces: seq<Piece>, line: string) {
    && pieces != [] && !pieces[|pieces| - 1].more
    && (forall k | 0 <= k < |pieces| - 1 :: pieces[k].more)
    && Concat(Chunks(pieces)) == line
  }

  function Chunks(pieces: seq<Piece>): seq<string> {
    seq(|pieces|, k requires 0 <= k < |pieces| => pieces[k].chunk)
  }

  /** Where the reader's buffer cuts a line makes no difference to the line read. */
  lemma {:induction false} PieceBoundariesVanish(buf: string, begun: bool, pieces: seq<Piece>, rest: seq<Piece>)
    requires pieces != [] && !pieces[|pieces| - 1].more && forall k | 0 <= k < |pieces| - 1 :: pieces[k].more
    requires begun || buf == ""
    requires ByteLen(buf + Concat(Chunks(pieces))) <= MAX_EVENT_BYTES
    ensures ReadLine(buf, begun, pieces + rest) == Line(buf + Concat(Chunks(pieces)), rest)
    decreases pieces
  {
    hide ByteLen;
    var p, tail := pieces[0], pieces[1..];
    assert (pieces + rest)[0] == p && (pieces + rest)[1..] == tail + rest;
    assert Chunks(pieces) == [p.chunk] + Chunks(tail);
    assert buf + Concat(Chunks(pieces)) == buf + p.chunk + Concat(Chunks(tail));
    ByteLenAppend(buf + p.chunk, Concat(Chunks(tail)));
    if tail == [] {
      assert Concat(Chunks(tail)) == "" && buf + p.chunk + "" == buf + p.chunk;
      assert tail + rest == rest;
    } else {
      assert tail[|tail| - 1] == pieces[|pieces| - 1];
      PieceBoundariesVanish(buf + p.chunk, true, tail, rest);
    }
  }

  // ---- Decoding ----

  predicate StartsWith(s: string, prefix: string) {
    prefix <= s
  }

  function Sniff(line: string): Format {
    var t := Trim(line);
    if t == "" then Auto
    else if t[0] == ':' || StartsWith(t, "data:") || StartsWith(t, "event:") || StartsWith(t, "id:")
      || StartsWith(t, "retry:")
    then Sse
    else if t[0] == '{' || t[0] == '[' then Ndjson
    else Auto
  }

  function IndexByte(s: string, c: char): (r: int)
    ensures -1 <= r < |s|
    ensures r >= 0 ==> s[r] == c
    ensures forall i | 0 <= i < (if r < 0 then |s| else r) :: s[i] != c
  {
    if s == "" then -1
    else if s[0] == c then 0
    else
      var r := IndexByte(s[1..], c);
      if r < 0 then -1 else r + 1
  }

  /** A field line's name and value; one space after the colon belongs to neither. */
  function SplitField(line: string): (string, string) {
    var i := IndexByte(line, ':');
    if i < 0 then (line, "")
    else
      var v := line[i + 1..];
      (line[..i], if v != "" && v[0] == ' ' then v[1..] else v)
  }

  /** The payload of the assembled event, if it is one. */
  function Flush(data: string): Option<string> {
    var t := Trim(data);
    if t == "" || t == DONE then None else Some(t)
  }

  function Extend(data: string, value: string): string {
    if data == "" then value else data + "\n" + value
  }

  /** What one line does to the decoder. */
  datatype Act = Go(format: Format, data: string) | Emit(payload: string, format': Format) | Halt | Overflow

  function OnLine(format: Format, data: string, line: string): Act {
    var f := if format == Auto then Sniff(line) else format;
    match f
    case Auto => Go(Auto, data)
    case Ndjson =>
      var t := Trim(line);
      if t == "" then Go(f, data) else if t == DONE then Halt else Emit(t, f)
    case Sse =>
      if Trim(line) == "" then
        (match Flush(data) case Some(p) => Emit(p, f) case None => Go(f, data))
      else if line[0] == ':' then Go(f, data)
      else if SplitField(line).0 == "data" then
        var more := Extend(data, SplitField(line).1);
        if ByteLen(more) > MAX_EVENT_BYTES then Overflow else Go(f, more)
      else Go(f, data)
  }

  /** Everything Next returns, one call after another, from a state between events or in
      the middle of one; None if an event or line is too large. */
  function Decode(format: Format, data: string, lines: seq<string>): Option<seq<string>>
    decreases lines
  {
    if lines == [] then Some(match Flush(data) case Some(p) => [p] case None => [])
    else
      match OnLine(format, data, lines[0])
      case Go(f, d) => Decode(f, d, lines[1..])
      case Emit(p, f) => Prepend(p, Decode(f, "", lines[1..]))
      case Halt => Some([])
      case Overflow => None
  }

  function Prepend(p: string, r: Option<seq<string>>): Option<seq<string>> {
    match r
    case Some(ps) => Some([p] + ps)
    case None => None
  }

  function DecodePieces(format: Format, data: string, pieces: seq<Piece>): Option<seq<string>>
    decreases |pieces|
  {
    match ReadLine("", false, pieces)
    case End => Some(match Flush(data) case Some(p) => [p] case None => [])
    case TooBig => None
    case Line(line, rest) =>
      assert pieces != [];
      ReadLineShrinks("", false, pieces);
      match OnLine(format, data, line)
      case Go(f, d) => DecodePieces(f, d, rest)
      case Emit(p, f) => Prepend(p, DecodePieces(f, "", rest))
      case Halt => Some([])
      case Overflow => None
  }

  function Flatten(cuts: seq<seq<Piece>>): seq<Piece> {
    if cuts == [] then [] else cuts[0] + Flatten(cuts[1..])
  }

  lemma CutLineIsRead(cut: seq<Piece>, line: string, rest: seq<Piece>)
    requires Cuts(cut, line) && ByteLen(line) <= MAX_EVENT_BYTES
    ensures ReadLine("", false, cut + rest) == Line(line, rest)
  {
    assert "" + line == line;
    PieceBoundariesVanish("", false, cut, rest);
  }

  /** Decoding a stream does not depend on how the reader cut its lines. */
  lemma {:induction false} DecodingIgnoresPieces(format: Format, data: string, lines: seq<string>,
                                                 cuts: seq<seq<Piece>>)
    requires |cuts| == |lines|
    requires forall k | 0 <= k < |lines| :: Cuts(cuts[k], lines[k]) && ByteLen(lines[k]) <= MAX_EVENT_BYTES
    ensures DecodePieces(format, data, Flatten(cuts)) == Decode(format, data, lines)
    decreases lines
  {
    hide OnLine, Flush, Cuts;
    if lines != [] {
      assert Cuts(cuts[0], lines[0]);
      CutLineIsRead(cuts[0], lines[0], Flatten(cuts[1..]));
      match OnLine(format, data, lines[0])
      case Go(f, d) => DecodingIgnoresPieces(f, d, lines[1..], cuts[1..]);
      case Emit(p, f) => DecodingIgnoresPieces(f, "", lines[1..], cuts[1..]);
      case _ =>
    }
  }

  // ---- The standard ----

  /** A buffer without its final line feed. */
  function StripLF(buf: string): string {
    if buf != "" && buf[|buf| - 1] == '\n' then buf[..|buf| - 1] else buf
  }

  /** The data buffers section 9.2.6 dispatches, given the buffer so far, followed by what
      is still in the buffer when the stream ends, which the standard discards. */
  function StdEvents(buf: string, lines: seq<string>): seq<string>
    decreases lines
  {
    if lines == [] then (if buf == "" then [] else [StripLF(buf)])
    else
      var line, rest := lines[0], lines[1..];
      if line == "" then (if buf == "" then StdEvents("", rest) else [StripLF(buf)] + StdEvents("", rest))
      else if line[0] == ':' then StdEvents(buf, rest)
      else if SplitField(line).0 == "data" then StdEvents(buf + SplitField(line).1 + "\n", rest)
      else StdEvents(buf, rest)
  }

  /** The decoder ends an event at any line of whitespace, the standard at empty lines. */
  function Blanked(lines: seq<string>): seq<string> {
    seq(|lines|, k requires 0 <= k < |lines| => if AllSpace(lines[k]) then "" else lines[k])
  }

  /** An event behind a buffer that was not emitted. */
  function Added(carry: string, e: string): string {
    if carry == "" then e else carry + "\n" + e
  }

  /** What becomes of events when the decoder keeps a buffer it did not emit. */
  function Carried(carry: string, events: seq<string>): seq<string>
    decreases events
  {
    if events == [] then []
    else
      var data := Added(carry, events[0]);
      match Flush(data)
      case Some(p) => [p] + Carried("", events[1..])
      case None => Carried(data, events[1..])
  }

  /** The same text up to leading whitespace. */
  ghost predicate LeadEq(a: string, b: string) {
    exists u, v :: AllSpace(u) && AllSpace(v) && u + a == v + b
  }

  lemma LeadEqBy(a: string, b: string, u: string, v: string)
    requires AllSpace(u) && AllSpace(v) && u + a == v + b
    ensures LeadEq(a, b)
  {
  }

  lemma LeadEqFlush(a: string, b: string)
    requires LeadEq(a, b)
    ensures Flush(a) == Flush(b)
  {
    var u, v :| AllSpace(u) && AllSpace(v) && u + a == v + b;
    assert u + a + "" == u + a && v + b + "" == v + b;
    TrimIgnoresSurroundings(u, a, "");
    TrimIgnoresSurroundings(v, b, "");
  }

  /** The decoder's buffer, were it to keep leading line feeds. */
  function Glue(carry: string, buf: string): string {
    if buf == "" then carry else if carry == "" then StripLF(buf) else carry + "\n" + StripLF(buf)
  }

  lemma GlueStep(carry: string, buf: string, value: string)
    requires buf == "" || buf[|buf| - 1] == '\n'
    ensures Glue(carry, buf + value + "\n") ==
            if buf == "" then (if carry == "" then value else carry + "\n" + value)
            else Glue(carry, buf) + "\n" + value
  {
    var more := buf + value + "\n";
    assert StripLF(more) == buf + value;
    if buf != "" {
      assert buf == StripLF(buf) + "\n";
      assert carry + "\n" + (StripLF(buf) + "\n" + value) == carry + "\n" + StripLF(buf) + "\n" + value;
    } else {
      assert buf + value == value;
    }
  }

  lemma ExtendKeepsLeadEq(data: string, glue: string, value: string)
    requires LeadEq(data, glue)
    ensures LeadEq(Extend(data, value), glue + "\n" + value)
    ensures glue == "" ==> LeadEq(Extend(data, value), value)
  {
    var u, v :| AllSpace(u) && AllSpace(v) && u + data == v + glue;
    if data == "" {
      assert u + data == u;
      assert AllSpace(v + glue + "\n");
      assert (v + glue + "\n") + value == v + (glue + "\n" + value);
      LeadEqBy(value, glue + "\n" + value, v + glue + "\n", v);
      LeadEqBy(value, value, "", "");
    } else {
      assert u + (data + "\n" + value) == (u + data) + "\n" + value;
      assert v + (glue + "\n" + value) == (v + glue) + "\n" + value;
      LeadEqBy(data + "\n" + value, glue + "\n" + value, u, v);
      if glue == "" {
        assert v + glue == v;
        assert AllSpace(v + "\n");
        assert u + (data + "\n" + value) == (v + "\n") + value;
        LeadEqBy(data + "\n" + value, value, u, v + "\n");
      }
    }
  }

  lemma BlankIffTrim(s: string)
    ensures Trim(s) == "" <==> AllSpace(s)
  {
    TrimEmpty(s);
  }

  /** The decoder's buffer against the standard's: LeadEq between events and within one. */
  ghost predicate InTune(data: string, carry: string, buf: string) {
    && Flush(carry) == None && (buf == "" || buf[|buf| - 1] == '\n')
    && LeadEq(data, Glue(carry, buf))
  }

  lemma TuneData(data: string, carry: string, buf: string, value: string)
    requires InTune(data, carry, buf)
    ensures InTune(Extend(data, value), carry, buf + value + "\n")
  {
    GlueStep(carry, buf, value);
    ExtendKeepsLeadEq(data, Glue(carry, buf), value);
  }

  lemma LeadEqRefl(a: string)
    ensures LeadEq(a, a)
  {
    LeadEqBy(a, a, "", "");
  }

  /** The decoder, forced to SSE, on any lines at all: it computes what carrying unemitted
      buffers makes of the standard's events, with whitespace lines read as empty ones. */
  lemma {:induction false} DecoderFollowsEvents(data: string, carry: string, buf: string, lines: seq<string>)
    requires InTune(data, carry, buf) && Decode(Sse, data, lines).Some?
    ensures Decode(Sse, data, lines) == Some(Carried(carry, StdEvents(buf, Blanked(lines))))
    decreases lines
  {
    LeadEqFlush(data, Glue(carry, buf));
    var std := Blanked(lines);
    if lines == [] {
      assert std == [] && Carried("", []) == [];
      if buf != "" {
        var e := StripLF(buf);
        assert StdEvents(buf, std) == [e] && [e][1..] == [];
        assert Carried(Glue(carry, buf), []) == [];
        if Flush(data).Some? { assert [Flush(data).value] + [] == [Flush(data).value]; }
      }
    } else {
      var line, rest := lines[0], lines[1..];
      assert std[1..] == Blanked(rest);
      BlankIffTrim(line);
      if AllSpace(line) {
        DecodeBlankLine(data, carry, buf, lines);
      } else if line[0] == ':' || SplitField(line).0 != "data" {
        DecoderFollowsEvents(data, carry, buf, rest);
      } else {
        var v := SplitField(line).1;
        TuneData(data, carry, buf, v);
        DecoderFollowsEvents(Extend(data, v), carry, buf + v + "\n", rest);
      }
    }
  }

  lemma DecodeBlankLine(data: string, carry: string, buf: string, lines: seq<string>)
    requires InTune(data, carry, buf) && Flush(data) == Flush(Glue(carry, buf))
    requires lines != [] && AllSpace(lines[0]) && Decode(Sse, data, lines).Some?
    ensures Decode(Sse, data, lines) == Some(Carried(carry, StdEvents(buf, Blanked(lines))))
    decreases lines, 0
  {
    var std, rest := Blanked(lines), lines[1..];
    assert std[0] == "" && std[1..] == Blanked(rest);
    BlankIffTrim(lines[0]);
    if buf == "" {
      DecoderFollowsEvents(data, carry, "", rest);
    } else {
      var events := StdEvents("", Blanked(rest));
      assert StdEvents(buf, std) == [StripLF(buf)] + events;
      assert ([StripLF(buf)] + events)[1..] == events;
      match Flush(data)
      case Some(p) =>
        LeadEqRefl("");
        FlushEmpty();
        DecoderFollowsEvents("", "", "", rest);
      case None =>
        DecoderFollowsEvents(data, Glue(carry, buf), "", rest);
    }
  }

  lemma FlushEmpty()
    ensures Flush("") == None
  {
  }

  // ---- When the sentinel is last ----

  /** The standard's events, trimmed, without blank ones and the sentinel. */
  function Expected(events: seq<string>): seq<string>
    decreases events
  {
    if events == [] then []
    else match Flush(events[0])
      case Some(p) => [p] + Expected(events[1..])
      case None => Expected(events[1..])
  }

  /** The events, or pieces of events, that are not mere whitespace. */
  function NonBlank(events: seq<string>): seq<string> {
    if events == [] then []
    else (if AllSpace(events[0]) then [] else [events[0]]) + NonBlank(events[1..])
  }

  predicate LastOnly(pieces: seq<string>) {
    forall k | 0 <= k < |pieces| - 1 :: Trim(pieces[k]) != DONE
  }

  /** Nothing but blank events comes after a sentinel. */
  predicate SentinelLast(events: seq<string>) {
    LastOnly(NonBlank(events))
  }

  lemma JoinBlank(carry: string, e: string)
    requires AllSpace(e)
    ensures Trim(carry + "\n" + e) == Trim(carry)
  {
    assert AllSpace("\n" + e);
    assert "" + carry + ("\n" + e) == carry + "\n" + e;
    TrimIgnoresSurroundings("", carry, "\n" + e);
  }

  lemma BlankBefore(carry: string, e: string)
    requires AllSpace(carry)
    ensures Trim(carry + "\n" + e) == Trim(e)
  {
    assert AllSpace(carry + "\n");
    assert (carry + "\n") + e + "" == carry + "\n" + e;
    TrimIgnoresSurroundings(carry + "\n", e, "");
  }

  /** The buffer the decoder is left with. */
  function Kept(carry: string, events: seq<string>): string
    decreases events
  {
    if events == [] then carry
    else
      var data := Added(carry, events[0]);
      Kept(if Flush(data).Some? then "" else data, events[1..])
  }

  lemma {:induction false} CarriedAppend(carry: string, a: seq<string>, b: seq<string>)
    ensures Carried(carry, a + b) == Carried(carry, a) + Carried(Kept(carry, a), b)
    ensures Kept(carry, a + b) == Kept(Kept(carry, a), b)
    decreases a
  {
    hide Flush;
    if a == [] {
      assert a + b == b;
    } else {
      assert (a + b)[1..] == a[1..] + b;
      var data := Added(carry, a[0]);
      match Flush(data)
      case Some(p) =>
        CarriedAppend("", a[1..], b);
        assert [p] + (Carried("", a[1..]) + Carried(Kept("", a[1..]), b))
               == [p] + Carried("", a[1..]) + Carried(Kept("", a[1..]), b);
      case None =>
        CarriedAppend(data, a[1..], b);
    }
  }

  lemma {:induction false} KeptIsQuiet(carry: string, events: seq<string>)
    requires Flush(carry) == None
    ensures Flush(Kept(carry, events)) == None
    decreases events
  {
    if events != [] {
      var data := Added(carry, events[0]);
      FlushEmpty();
      KeptIsQuiet(if Flush(data).Some? then "" else data, events[1..]);
    }
  }

  // ---- Lines of whitespace ----

  predicate Open(buf: string) {
    buf == "" || buf[|buf| - 1] == '\n'
  }

  function Closed(parts: seq<string>, buf: string): seq<string> {
    if buf == "" then parts else parts + [StripLF(buf)]
  }

  /** The standard's events, each cut where a line of mere whitespace stood in it. */
  function Groups(parts: seq<string>, buf: string, lines: seq<string>): seq<seq<string>>
    decreases lines
  {
    var group := Closed(parts, buf);
    if lines == [] then (if group == [] then [] else [group])
    else
      var line, rest := lines[0], lines[1..];
      if line == "" then (if group == [] then Groups([], "", rest) else [group] + Groups([], "", rest))
      else if AllSpace(line) then Groups(group, "", rest)
      else if line[0] == ':' then Groups(parts, buf, rest)
      else if SplitField(line).0 == "data" then Groups(parts, buf + SplitField(line).1 + "\n", rest)
      else Groups(parts, buf, rest)
  }

  function Flat(groups: seq<seq<string>>): seq<string> {
    if groups == [] then [] else groups[0] + Flat(groups[1..])
  }

  function Joined(groups: seq<seq<string>>): seq<string> {
    if groups == [] then [] else [Join(groups[0], "\n")] + Joined(groups[1..])
  }

  /** Parts that are complete, each with its line feed. */
  function Buffered(parts: seq<string>): string {
    if parts == [] then "" else Buffered(parts[..|parts| - 1]) + parts[|parts| - 1] + "\n"
  }

  lemma BufferedClosed(parts: seq<string>, buf: string)
    requires Open(buf)
    ensures Buffered(Closed(parts, buf)) == Buffered(parts) + buf
  {
    if buf == "" {
      assert Buffered(parts) + "" == Buffered(parts);
    } else {
      var p := StripLF(buf);
      assert buf == p + "\n";
      assert (parts + [p])[..|parts|] == parts;
      assert Buffered(parts) + p + "\n" == Buffered(parts) + buf;
    }
  }

  lemma {:induction false} BufferedIsJoin(parts: seq<string>)
    requires parts != []
    ensures Buffered(parts) != "" && StripLF(Buffered(parts)) == Join(parts, "\n")
    ensures Buffered(parts) == Join(parts, "\n") + "\n"
    decreases |parts|
  {
    var init, last := parts[..|parts| - 1], parts[|parts| - 1];
    if init == [] {
      assert parts == [last] && Buffered(init) == "";
      assert "" + last + "\n" == last + "\n";
    } else {
      BufferedIsJoin(init);
      JoinSnoc(init, last, "\n");
      assert init + [last] == parts;
    }
  }

  lemma {:induction false} JoinSnoc(parts: seq<string>, last: string, sep: string)
    requires parts != []
    ensures Join(parts + [last], sep) == Join(parts, sep) + sep + last
  {
    if |parts| == 1 {
      assert (parts + [last])[1..] == [last];
    } else {
      assert (parts + [last])[1..] == parts[1..] + [last];
      JoinSnoc(parts[1..], last, sep);
      assert parts[0] + sep + (Join(parts[1..], sep) + sep + last)
             == (parts[0] + sep + Join(parts[1..], sep)) + sep + last;
    }
  }

  /** What the standard makes of the parts of one event, complete or not. */
  lemma GroupIsBuffer(parts: seq<string>, buf: string)
    requires Open(buf)
    ensures var group, b := Closed(parts, buf), Buffered(parts) + buf;
            && Buffered(group) == b && (group == [] <==> b == "")
            && (group != [] ==> StripLF(b) == Join(group, "\n"))
  {
    var group := Closed(parts, buf);
    BufferedClosed(parts, buf);
    if group != [] { BufferedIsJoin(group); }
  }

  lemma JoinedCons(group: seq<string>, groups: seq<seq<string>>)
    ensures Joined([group] + groups) == [Join(group, "\n")] + Joined(groups)
  {
    assert ([group] + groups)[1..] == groups;
  }

  /** What a line does to an event under way, for the standard and for its cut form. */
  datatype Effect = Dispatches | Parts | Adds(value: string) | Skips

  function EffectOf(line: string): Effect {
    if line == "" then Dispatches
    else if AllSpace(line) then Parts
    else if line[0] == ':' then Skips
    else if SplitField(line).0 == "data" then Adds(SplitField(line).1)
    else Skips
  }

  lemma StdEffect(b: string, lines: seq<string>)
    requires lines != []
    ensures StdEvents(b, lines) ==
              match EffectOf(lines[0])
              case Dispatches => (if b == "" then [] else [StripLF(b)]) + StdEvents("", lines[1..])
              case Parts => StdEvents(b, lines[1..])
              case Adds(v) => StdEvents(b + v + "\n", lines[1..])
              case Skips => StdEvents(b, lines[1..])
  {
    if EffectOf(lines[0]).Parts? {
      assert [lines[0]] + lines[1..] == lines;
      StdSpaceStep(b, lines[0], lines[1..]);
    }
  }

  lemma GroupsEffect(parts: seq<string>, buf: string, lines: seq<string>)
    requires lines != []
    ensures var group := Closed(parts, buf);
            Groups(parts, buf, lines) ==
              match EffectOf(lines[0])
              case Dispatches => (if group == [] then [] else [group]) + Groups([], "", lines[1..])
              case Parts => Groups(group, "", lines[1..])
              case Adds(v) => Groups(parts, buf + v + "\n", lines[1..])
              case Skips => Groups(parts, buf, lines[1..])
  {
    hide AllSpace, SplitField, StripLF, Closed;
    NoLines(Closed(parts, buf), Groups([], "", lines[1..]));
  }

  lemma LastGroupJoins(parts: seq<string>, buf: string)
    requires Open(buf)
    ensures Joined(Groups(parts, buf, [])) == StdEvents(Buffered(parts) + buf, [])
  {
    GroupIsBuffer(parts, buf);
    var group := Closed(parts, buf);
    JoinedCons(group, []);
    assert [group] + [] == [group] && [Join(group, "\n")] + [] == [Join(group, "\n")];
  }

  lemma NoParts()
    ensures Open("") && Buffered([]) + "" == ""
  {
  }

  lemma AddedIsOpen(before: string, buf: string, v: string)
    ensures Open(buf + v + "\n") && before + (buf + v + "\n") == before + buf + v + "\n"
  {
  }

  lemma NoLines(group: seq<string>, groups: seq<seq<string>>)
    ensures (if group == [] then [] else [group]) + groups == if group == [] then groups else [group] + groups
  {
  }

  /** Put together, the cut events are the standard's. */
  lemma {:induction false} GroupsJoin(parts: seq<string>, buf: string, lines: seq<string>)
    requires Open(buf)
    ensures Joined(Groups(parts, buf, lines)) == StdEvents(Buffered(parts) + buf, lines)
    decreases lines
  {
    var group, b := Closed(parts, buf), Buffered(parts) + buf;
    if lines == [] {
      LastGroupJoins(parts, buf);
    } else {
      hide *;
      GroupIsBuffer(parts, buf);
      NoParts();
      assert Buffered(group) + "" == b;
      StdEffect(b, lines);
      GroupsEffect(parts, buf, lines);
      match EffectOf(lines[0])
      case Dispatches =>
        GroupsJoin([], "", lines[1..]);
        JoinedCons(group, Groups([], "", lines[1..]));
        NoLines(group, Groups([], "", lines[1..]));
      case Parts =>
        GroupsJoin(group, "", lines[1..]);
      case Adds(v) =>
        AddedIsOpen(Buffered(parts), buf, v);
        GroupsJoin(parts, buf + v + "\n", lines[1..]);
      case Skips =>
        GroupsJoin(parts, buf, lines[1..]);
    }
  }

  /** One after another, the pieces are what the decoder sees. */
  lemma {:induction false} GroupsFlatten(parts: seq<string>, buf: string, lines: seq<string>)
    requires Open(buf)
    ensures Flat(Groups(parts, buf, lines)) == parts + StdEvents(buf, Blanked(lines))
    decreases lines
  {
    hide StripLF, SplitField, AllSpace;
    var group := Closed(parts, buf);
    if lines == [] {
      if group != [] { assert [group][1..] == [] && group + Flat([]) == group; }
      assert parts + [] == parts;
    } else {
      var line, rest := lines[0], lines[1..];
      assert Blanked(lines)[1..] == Blanked(rest);
      if line == "" {
        GroupsFlatten([], "", rest);
        assert [] + StdEvents("", Blanked(rest)) == StdEvents("", Blanked(rest));
        if group != [] { assert ([group] + Groups([], "", rest))[1..] == Groups([], "", rest); }
        if buf != "" {
          assert parts + ([StripLF(buf)] + StdEvents("", Blanked(rest)))
                 == parts + [StripLF(buf)] + StdEvents("", Blanked(rest));
        }
      } else if AllSpace(line) {
        GroupsFlatten(group, "", rest);
        if buf != "" {
          assert parts + ([StripLF(buf)] + StdEvents("", Blanked(rest)))
                 == parts + [StripLF(buf)] + StdEvents("", Blanked(rest));
        }
      } else if line[0] == ':' || SplitField(line).0 != "data" {
        GroupsFlatten(parts, buf, rest);
      } else {
        GroupsFlatten(parts, buf + SplitField(line).1 + "\n", rest);
      }
    }
  }

  /** The event has data on at most one side of each line of whitespace in it. */
  predicate Whole(group: seq<string>) {
    |NonBlank(group)| <= 1
  }

  predicate AllWhole(groups: seq<seq<string>>) {
    forall g | g in groups :: Whole(g)
  }

  /** The event as the standard has it. */
  function Event(group: seq<string>): string {
    Join(group, "\n")
  }

  /** Where the first piece with data stands. */
  function First(group: seq<string>): (i: nat)
    ensures i <= |group| && (i == |group| <==> NonBlank(group) == [])
  {
    if group != [] && AllSpace(group[0]) then 1 + First(group[1..]) else 0
  }

  lemma FirstPiece(group: seq<string>)
    ensures var i := First(group);
            && NonBlank(group[..i]) == []
            && (i < |group| ==> !AllSpace(group[i]) && NonBlank(group) == [group[i]] + NonBlank(group[i + 1..]))
  {
    hide *;
    FirstIsFirst(group);
    var i := First(group);
    if i < |group| {
      CutAt(group, i);
      AfterBlanks(group[..i], group[i], group[i + 1..]);
    }
  }

  lemma CutAt(group: seq<string>, i: nat)
    requires i < |group|
    ensures group == group[..i] + ([group[i]] + group[i + 1..])
  {
  }

  lemma AfterBlanks(blanks: seq<string>, q: string, rest: seq<string>)
    requires NonBlank(blanks) == [] && !AllSpace(q)
    ensures NonBlank(blanks + ([q] + rest)) == [q] + NonBlank(rest)
  {
    hide *;
    NonBlankAppend(blanks, [q] + rest);
    NonBlankCons(q, rest);
    assert [] + NonBlank([q] + rest) == NonBlank([q] + rest);
  }

  lemma {:induction false} FirstIsFirst(group: seq<string>)
    ensures var i := First(group);
            NonBlank(group[..i]) == [] && (i < |group| ==> !AllSpace(group[i]))
  {
    assert group[..0] == [] && NonBlank([]) == [];
    hide AllSpace, NonBlank;
    if group != [] && AllSpace(group[0]) {
      assert First(group) == 1 + First(group[1..]);
      hide *;
      var i := First(group);
      FirstIsFirst(group[1..]);
      ConsPrefix(group, i);
      NonBlankCons(group[0], group[1..][..i - 1]);
    }
  }

  lemma ConsPrefix(group: seq<string>, i: nat)
    requires 0 < i <= |group|
    ensures group[..i] == [group[0]] + group[1..][..i - 1]
    ensures i < |group| ==> group[1..][i - 1] == group[i]
  {
  }

  lemma NonBlankCons(e: string, rest: seq<string>)
    ensures NonBlank([e] + rest) == if AllSpace(e) then NonBlank(rest) else [e] + NonBlank(rest)
  {
    assert ([e] + rest)[1..] == rest;
  }

  lemma {:induction false} NonBlankAppend(a: seq<string>, b: seq<string>)
    ensures NonBlank(a + b) == NonBlank(a) + NonBlank(b)
    decreases a
  {
    hide AllSpace;
    if a == [] {
      assert a + b == b;
    } else {
      assert (a + b)[1..] == a[1..] + b;
      NonBlankAppend(a[1..], b);
    }
  }

  /** Pieces without data, together with what is kept, are what is kept. */
  lemma {:induction false} BlankPieces(carry: string, blanks: seq<string>)
    requires NonBlank(blanks) == [] && Flush(carry) == None
    ensures Carried(carry, blanks) == [] && Trim(Kept(carry, blanks)) == Trim(carry)
    ensures AllSpace(Event(blanks))
    decreases blanks
  {
    hide Trim;
    if blanks != [] {
      var data := Added(carry, blanks[0]);
      TrimEmpty(blanks[0]);
      if carry != "" { JoinBlank(carry, blanks[0]); } else { TrimOfNothing(); }
      BlankPieces(data, blanks[1..]);
    }
  }

  lemma TrimOfNothing()
    ensures Trim("") == ""
  {
  }

  lemma {:induction false} BlanksAreKept(carry: string, blanks: seq<string>)
    requires NonBlank(blanks) == [] && Flush(carry) == None && carry != ""
    ensures Kept(carry, blanks) == if blanks == [] then carry else carry + "\n" + Event(blanks)
    decreases blanks
  {
    hide Trim, AllSpace;
    if blanks != [] {
      JoinBlank(carry, blanks[0]);
      BlanksAreKept(carry + "\n" + blanks[0], blanks[1..]);
      if |blanks| > 1 {
        assert carry + "\n" + blanks[0] + "\n" + Event(blanks[1..])
               == carry + "\n" + (blanks[0] + "\n" + Event(blanks[1..]));
      }
    }
  }

  lemma {:induction false} EventAppend(a: seq<string>, b: seq<string>)
    requires a != [] && b != []
    ensures Event(a + b) == Event(a) + "\n" + Event(b)
    decreases a
  {
    if |a| == 1 {
      assert (a + b)[1..] == b;
    } else {
      assert (a + b)[1..] == a[1..] + b;
      EventAppend(a[1..], b);
      assert a[0] + "\n" + (Event(a[1..]) + "\n" + Event(b)) == a[0] + "\n" + Event(a[1..]) + "\n" + Event(b);
    }
  }

  /** Leading pieces without data leave no trace in the trimmed event. */
  lemma EventFrom(group: seq<string>, i: nat)
    requires i < |group| && NonBlank(group[..i]) == []
    ensures Trim(Event(group)) == Trim(Event(group[i..]))
  {
    if i == 0 {
      assert group[i..] == group;
    } else {
      assert group == group[..i] + group[i..];
      EventAppend(group[..i], group[i..]);
      FlushEmpty();
      BlankPieces("", group[..i]);
      BlankBefore(Event(group[..i]), Event(group[i..]));
    }
  }

  /** An event whose data is in one piece is that piece, up to trimming. */
  lemma EventOfOne(group: seq<string>)
    requires group != [] && !AllSpace(group[0]) && NonBlank(group[1..]) == []
    ensures Trim(Event(group)) == Trim(group[0])
  {
    var rest := group[1..];
    if rest != [] {
      assert group == [group[0]] + rest;
      EventAppend([group[0]], rest);
      FlushEmpty();
      BlankPieces("", rest);
      JoinBlank(group[0], Event(rest));
    }
  }

  lemma {:induction false} EventIsBlank(group: seq<string>)
    ensures AllSpace(Event(group)) <==> NonBlank(group) == []
  {
    FlushEmpty();
    if NonBlank(group) == [] {
      BlankPieces("", group);
    } else {
      var i := First(group);
      FirstPiece(group);
      EventFrom(group, i);
      var rest := group[i..];
      TrimEmpty(Event(group));
      TrimEmpty(Event(rest));
      if |rest| > 1 {
        var e := Event(rest);
        assert forall k | 0 <= k < |rest[0]| :: e[k] == rest[0][k];
      }
    }
  }

  /** An event with data in two pieces or more: longer than its first piece, and never the
      sentinel. */
  lemma EventOfMore(group: seq<string>)
    requires group != [] && !AllSpace(group[0]) && NonBlank(group[1..]) != []
    ensures Trim(Event(group)) == TrimLeft(group[0]) + "\n" + TrimRight(Event(group[1..]))
    ensures |Trim(group[0])| < |Trim(Event(group))|
    ensures Expected([Event(group)]) == [Trim(Event(group))]
  {
    var rest := group[1..];
    var e := Event(group);
    assert group == [group[0]] + rest;
    EventAppend([group[0]], rest);
    EventIsBlank(rest);
    TrimOfTwo(group[0], "\n", Event(rest));
    NewlineInside(TrimLeft(group[0]), TrimRight(Event(rest)));
    assert [e][1..] == [] && [Trim(e)] + [] == [Trim(e)];
  }

  lemma NewlineInside(a: string, b: string)
    ensures a + "\n" + b != DONE && a + "\n" + b != ""
  {
    assert (a + "\n" + b)[|a|] == '\n';
    assert forall k | 0 <= k < |DONE| :: DONE[k] != '\n';
  }

  /** A piece with data after a kept sentinel: it comes out with the sentinel in front. */
  lemma AfterSentinel(carry: string, group: seq<string>)
    requires Trim(carry) == DONE && NonBlank(group) != []
    ensures var (i, front) := (First(group), Event(group[..First(group) + 1]));
            && Carried(carry, group) == [Trim(carry + "\n" + front)] + Carried("", group[i + 1..])
            && Kept(carry, group) == Kept("", group[i + 1..])
            && Trim(carry + "\n" + front) == TrimLeft(carry) + "\n" + TrimRight(front)
            && |TrimLeft(carry)| >= |DONE| && |TrimRight(front)| >= |Trim(group[i])|
  {
    hide *;
    var i := First(group);
    var blanks, q, rest, front := group[..i], group[i], group[i + 1..], Event(group[..i + 1]);
    var data := Added(Kept(carry, blanks), q);
    FirstPiece(group);
    FlushIs(carry);
    assert group == blanks + [q] + rest && group[..i + 1] == blanks + [q];
    CarriedAppend(carry, blanks + [q], rest);
    CarriedAppend(carry, blanks, [q]);
    BlankPieces(carry, blanks);
    FrontOfOne(blanks, q);
    SentinelIsData(carry);
    TrimOfTwo(carry, "\n", front);
    NewlineInside(TrimLeft(carry), TrimRight(front));
    KeptFront(carry, blanks, q);
    OnePiece(Kept(carry, blanks), q);
    FlushIs(data);
    assert [] + [Trim(data)] == [Trim(data)];
  }

  lemma SentinelIsData(carry: string)
    requires Trim(carry) == DONE
    ensures !AllSpace(carry)
  {
    TrimEmpty(carry);
  }

  lemma FlushIs(data: string)
    ensures Flush(data) == if Trim(data) == "" || Trim(data) == DONE then None else Some(Trim(data))
  {
  }

  lemma KeptFront(carry: string, blanks: seq<string>, q: string)
    requires NonBlank(blanks) == [] && Trim(carry) == DONE
    ensures Added(Kept(carry, blanks), q) == carry + "\n" + Event(blanks + [q])
  {
    hide NonBlank, Trim;
    TrimOfNothing();
    BlanksAreKept(carry, blanks);
    hide Kept;
    if blanks != [] {
      EventAppend(blanks, [q]);
      assert carry + "\n" + Event(blanks) + "\n" + q == carry + "\n" + (Event(blanks) + "\n" + q);
    } else {
      assert blanks + [q] == [q];
    }
  }

  lemma OnePiece(carry: string, q: string)
    ensures var p := Flush(Added(carry, q));
            && Carried(carry, [q]) == (if p.Some? then [p.value] else [])
            && Kept(carry, [q]) == if p.Some? then "" else Added(carry, q)
  {
    assert [q][1..] == [];
  }

  lemma FrontOfOne(blanks: seq<string>, q: string)
    requires NonBlank(blanks) == [] && !AllSpace(q)
    ensures !AllSpace(Event(blanks + [q])) && Trim(Event(blanks + [q])) == Trim(q)
  {
    var g := blanks + [q];
    assert g[..|blanks|] == blanks && g[|blanks|..] == [q];
    EventFrom(g, |blanks|);
    TrimEmpty(q);
    TrimEmpty(Event(g));
  }

  /** What pieces with data, or none, add to the end of an event. */
  lemma EventEnd(group: seq<string>, k: nat)
    requires 0 < k <= |group|
    ensures NonBlank(group[k..]) == [] ==> TrimRight(Event(group)) == TrimRight(Event(group[..k]))
    ensures NonBlank(group[k..]) != [] ==> |TrimRight(Event(group))| > |TrimRight(Event(group[..k]))|
  {
    var a, b := group[..k], group[k..];
    assert group == a + b;
    if b != [] {
      EventAppend(a, b);
      EventIsBlank(b);
      if NonBlank(b) == [] {
        assert Event(a) + "\n" + Event(b) == Event(a) + ("\n" + Event(b));
        TrimRightDropsSuffix(Event(a), "\n" + Event(b));
      } else {
        TrimRightAppend(Event(a) + "\n", Event(b));
        TrimRightShortens(Event(a));
      }
    } else {
      assert group[..k] == group;
    }
  }

  /** What comes out of one event is the event. */
  predicate ComesOutWhole(carry: string, group: seq<string>) {
    var pieces := NonBlank(group);
    if Trim(carry) != DONE then |pieces| <= 1 || (|pieces| == 2 && Trim(pieces[0]) == DONE)
    else
      pieces == []
      || (|pieces| == 2 && Trim(pieces[1]) == DONE
          && Trim(carry + "\n" + Event(group[..First(group) + 1])) == Trim(Event(group)))
  }

  lemma BlankGroup(carry: string, group: seq<string>)
    requires Flush(carry) == None && NonBlank(group) == []
    ensures Carried(carry, group) == [] && Expected([Event(group)]) == []
    ensures Trim(Kept(carry, group)) == Trim(carry)
  {
    BlankPieces(carry, group);
    TrimEmpty(Event(group));
    assert [Event(group)][1..] == [];
  }

  lemma FreshPiece(kept: string, q: string)
    requires AllSpace(kept) && !AllSpace(q)
    ensures Trim(Added(kept, q)) == Trim(q) && TrimLeft(Added(kept, q)) == TrimLeft(q)
    ensures Flush(Added(kept, q)) == if Trim(q) == DONE then None else Some(Trim(q))
  {
    TrimEmpty(q);
    if kept != "" {
      BlankBefore(kept, q);
      TrimLeftAppend(kept + "\n", q);
    }
  }

  lemma ExpectedOne(e: string)
    ensures Expected([e]) == if Trim(e) == "" || Trim(e) == DONE then [] else [Trim(e)]
  {
    assert [e][1..] == [] && [Trim(e)] + [] == [Trim(e)];
  }

  lemma SameTrimSameExpected(a: string, b: string)
    requires Trim(a) == Trim(b)
    ensures Expected([a]) == Expected([b])
  {
    hide Trim;
    ExpectedOne(a);
    ExpectedOne(b);
  }

  /** A first piece with data, and the rest of its event. */
  function Out(data: string, q: string, rest: seq<string>): seq<string> {
    if Trim(q) == DONE then Carried(data, rest) else [Trim(q)] + Carried("", rest)
  }

  function Left(data: string, q: string, rest: seq<string>): string {
    if Trim(q) == DONE then Kept(data, rest) else Kept("", rest)
  }

  lemma FreshWhole(data: string, q: string, rest: seq<string>)
    requires !AllSpace(q) && Trim(data) == Trim(q) && NonBlank(rest) == []
    ensures Out(data, q, rest) == Expected([Event([q] + rest)])
    ensures Trim(Left(data, q, rest)) == if Trim(q) == DONE then DONE else ""
  {
    TrimEmpty(q);
    EventOfOne([q] + rest);
    FlushEmpty();
    TrimEmpty("");
    BlankPieces(if Trim(q) == DONE then data else "", rest);
    SameTrimSameExpected(Event([q] + rest), q);
    assert [q][1..] == [] && [Trim(q)] + [] == [Trim(q)];
  }

  lemma FreshSplit(data: string, q: string, rest: seq<string>)
    requires !AllSpace(q) && Trim(data) == Trim(q) && TrimLeft(data) == TrimLeft(q) && NonBlank(rest) != []
    ensures Out(data, q, rest) == Expected([Event([q] + rest)]) <==> Trim(q) == DONE && |NonBlank(rest)| == 1
    ensures |Out(data, q, rest)| >= 1 == |Expected([Event([q] + rest)])|
    ensures Trim(q) == DONE && |NonBlank(rest)| == 1 ==> Trim(Left(data, q, rest)) == ""
  {
    hide Trim, TrimLeft, TrimRight, Event, Carried, Kept, Expected, NonBlank, AllSpace;
    EventOfMore([q] + rest);
    assert ([q] + rest)[1..] == rest;
    if Trim(q) == DONE {
      SentinelAndMore(data, rest);
    } else {
      assert Out(data, q, rest)[0] == Trim(q);
    }
  }

  lemma SentinelAndMore(data: string, rest: seq<string>)
    requires Trim(data) == DONE && NonBlank(rest) != []
    ensures Carried(data, rest) != []
    ensures var e := TrimLeft(data) + "\n" + TrimRight(Event(rest));
            if |NonBlank(rest)| == 1 then Carried(data, rest) == [e] && Trim(Kept(data, rest)) == ""
            else |Carried(data, rest)[0]| < |e|
  {
    hide Trim, TrimLeft, TrimRight, Event, Carried, Kept, NonBlank, AllSpace;
    var i := First(rest);
    FirstPiece(rest);
    AfterSentinel(data, rest);
    EventEnd(rest, i + 1);
    FlushEmpty();
    assert Trim("") == "" by { TrimOfNothing(); }
    if NonBlank(rest[i + 1..]) == [] { BlankPieces("", rest[i + 1..]); }
  }

  /** With nothing but whitespace kept, an event whose data is in pieces comes out whole
      exactly if they are two and the first is the sentinel. */
  lemma FreshGroup(carry: string, group: seq<string>)
    requires AllSpace(carry) && NonBlank(group) != []
    ensures var pieces := NonBlank(group);
            && (Carried(carry, group) == Expected([Event(group)])
                <==> |pieces| == 1 || (|pieces| == 2 && Trim(pieces[0]) == DONE))
            && |Carried(carry, group)| >= |Expected([Event(group)])|
            && (|pieces| == 1 ==> Trim(Kept(carry, group)) == if Trim(pieces[0]) == DONE then DONE else "")
            && (|pieces| == 2 && Trim(pieces[0]) == DONE ==> Trim(Kept(carry, group)) == "")
  {
    hide *;
    var i := First(group);
    var blanks, q, rest := group[..i], group[i], group[i + 1..];
    var data := Added(Kept(carry, blanks), q);
    FirstPiece(group);
    CutAt(group, i);
    FreshOut(carry, group, blanks, q, rest);
    if NonBlank(rest) == [] { FreshWhole(data, q, rest); } else { FreshSplit(data, q, rest); }
  }

  lemma FreshOut(carry: string, group: seq<string>, blanks: seq<string>, q: string, rest: seq<string>)
    requires AllSpace(carry) && NonBlank(blanks) == [] && !AllSpace(q) && group == blanks + ([q] + rest)
    ensures var data := Added(Kept(carry, blanks), q);
            && Carried(carry, group) == Out(data, q, rest) && Kept(carry, group) == Left(data, q, rest)
            && Trim(data) == Trim(q) && TrimLeft(data) == TrimLeft(q)
    ensures Trim(Event(group)) == Trim(Event([q] + rest))
            && Expected([Event(group)]) == Expected([Event([q] + rest)])
  {
    hide Trim, TrimLeft, TrimRight, Event, Carried, Kept, Expected, NonBlank, AllSpace;
    TrimEmpty(carry);
    BlankPieces(carry, blanks);
    var kept := Kept(carry, blanks);
    CarriedAppend(carry, blanks, [q] + rest);
    CarriedAppend(kept, [q], rest);
    OnePiece(kept, q);
    TrimEmpty(kept);
    FreshPiece(kept, q);
    assert group[..|blanks|] == blanks && group[|blanks|..] == [q] + rest;
    EventFrom(group, |blanks|);
    SameTrimSameExpected(Event(group), Event([q] + rest));
  }

  /** Data goes by unseen only if it is one sentinel. */
  lemma OutOfOne(group: seq<string>)
    requires NonBlank(group) != []
    ensures Carried("", group) == [] <==> |NonBlank(group)| == 1 && Trim(NonBlank(group)[0]) == DONE
  {
    hide Trim, Event, Carried, Expected, NonBlank, AllSpace;
    var i := First(group);
    var q, rest := group[i], group[i + 1..];
    FirstPiece(group);
    EventFrom(group, i);
    assert group[i..] == [q] + rest;
    EmptyIsSpace();
    FreshGroup("", group);
    TrimEmpty(q);
    ExpectedOne(Event(group));
    if NonBlank(rest) == [] { EventOfOne([q] + rest); } else { MoreThanOne(q, rest); }
  }

  lemma MoreThanOne(q: string, rest: seq<string>)
    requires !AllSpace(q) && NonBlank(rest) != []
    ensures Trim(Event([q] + rest)) != "" && Trim(Event([q] + rest)) != DONE
  {
    EventOfMore([q] + rest);
    ExpectedOne(Event([q] + rest));
    hide *;
  }

  /** With a sentinel kept, nothing with data comes out whole, unless it ends in a sentinel
      of its own that makes up for the one in front. */
  lemma HeldGroup(carry: string, group: seq<string>)
    requires Trim(carry) == DONE && NonBlank(group) != []
    ensures Carried(carry, group) == Expected([Event(group)]) <==> ComesOutWhole(carry, group)
    ensures |Carried(carry, group)| >= 1 >= |Expected([Event(group)])|
    ensures ComesOutWhole(carry, group) ==> Trim(Kept(carry, group)) == DONE
  {
    hide Trim, TrimLeft, TrimRight, Event, Carried, Kept, Expected, NonBlank, AllSpace;
    var i := First(group);
    var q, rest, front := group[i], group[i + 1..], Event(group[..i + 1]);
    var p := Trim(carry + "\n" + front);
    FirstPiece(group);
    AfterSentinel(carry, group);
    EventFrom(group, i);
    assert group[i..] == [q] + rest;
    SameTrimSameExpected(Event(group), Event([q] + rest));
    TrimEmpty(q);
    EmptyIsSpace();
    ExpectedOne(Event(group));
    if NonBlank(rest) == [] {
      EventOfOne([q] + rest);
      FlushEmpty();
      BlankPieces("", rest);
      assert [p] + [] == [p];
    } else {
      EventOfMore([q] + rest);
      FreshGroup("", rest);
      OutOfOne(rest);
      OneAndMore(p, Carried("", rest), Trim(Event(group)));
    }
  }

  lemma OneAndMore(p: string, more: seq<string>, e: string)
    ensures [p] + more == [e] <==> p == e && more == []
  {
    assert ([p] + more)[0] == p && |[p] + more| == 1 + |more|;
  }

  // ---- Where decoder and standard agree ----

  /** Every event comes out whole, given what is kept of those before it. */
  predicate AllComeOutWhole(carry: string, groups: seq<seq<string>>)
    decreases groups
  {
    groups == []
    || (ComesOutWhole(carry, groups[0]) && AllComeOutWhole(Kept(carry, groups[0]), groups[1..]))
  }

  lemma OneGroup(carry: string, group: seq<string>)
    requires Flush(carry) == None
    ensures Carried(carry, group) == Expected([Event(group)]) <==> ComesOutWhole(carry, group)
    ensures |Carried(carry, group)| >= |Expected([Event(group)])|
  {
    TrimEmpty(carry);
    if NonBlank(group) == [] {
      BlankGroup(carry, group);
    } else if AllSpace(carry) {
      FreshGroup(carry, group);
    } else {
      HeldGroup(carry, group);
    }
  }

  /** No event yields less than it should, so nothing can make up for one that yields
      more or other than it should. */
  lemma {:induction false} CarriedIsExpectedIff(carry: string, groups: seq<seq<string>>)
    requires Flush(carry) == None
    ensures Carried(carry, Flat(groups)) == Expected(Joined(groups)) <==> AllComeOutWhole(carry, groups)
    ensures |Carried(carry, Flat(groups))| >= |Expected(Joined(groups))|
    decreases groups
  {
    if groups != [] {
      var g, rest := groups[0], groups[1..];
      OneGroup(carry, g);
      KeptIsQuiet(carry, g);
      CarriedIsExpectedIff(Kept(carry, g), rest);
      CarriedAppend(carry, g, Flat(rest));
      ExpectedAppend([Event(g)], Joined(rest));
      hide ComesOutWhole, Carried, Expected, Event, Kept, Flush;
      var a, b := Carried(carry, g), Carried(Kept(carry, g), Flat(rest));
      var c, d := Expected([Event(g)]), Expected(Joined(rest));
      if a + b == c + d {
        assert |a| == |c|;
        assert (a + b)[..|a|] == a && (c + d)[..|c|] == c && (a + b)[|a|..] == b && (c + d)[|c|..] == d;
      }
    }
  }

  lemma {:induction false} ExpectedAppend(a: seq<string>, b: seq<string>)
    ensures Expected(a + b) == Expected(a) + Expected(b)
    decreases a
  {
    if a == [] {
      assert a + b == b;
    } else {
      assert (a + b)[1..] == a[1..] + b;
      ExpectedAppend(a[1..], b);
    }
  }

  // ---- One fault alone ----

  lemma LastOnlySplits(n: seq<string>, m: seq<string>)
    requires n != []
    ensures |n| == 1 ==> (LastOnly(n + m) <==> m == [] || (Trim(n[0]) != DONE && LastOnly(m)))
    ensures m == [] ==> LastOnly(m)
    ensures |n| > 1 && LastOnly(n + m) ==> Trim(n[0]) != DONE
  {
    var all := n + m;
    assert all[0] == n[0];
    if |n| == 1 {
      assert forall k | 0 <= k < |m| :: all[k + 1] == m[k];
      if LastOnly(all) && m != [] {
        forall k | 0 <= k < |m| - 1 ensures Trim(m[k]) != DONE { assert all[k + 1] == m[k]; }
      }
    }
  }

  lemma WholeCons(groups: seq<seq<string>>)
    requires groups != []
    ensures AllWhole(groups) <==> Whole(groups[0]) && AllWhole(groups[1..])
  {
    assert groups == [groups[0]] + groups[1..];
  }

  lemma {:induction false} HeldSpoils(carry: string, groups: seq<seq<string>>)
    requires Trim(carry) == DONE && (AllWhole(groups) || NonBlank(Flat(groups)) == [])
    ensures AllComeOutWhole(carry, groups) <==> NonBlank(Flat(groups)) == []
    ensures NonBlank(Flat(groups)) == [] ==> AllWhole(groups)
    decreases groups
  {
    if groups != [] {
      var g, rest := groups[0], groups[1..];
      NonBlankAppend(g, Flat(rest));
      WholeCons(groups);
      if NonBlank(g) == [] {
        BlankGroup(carry, g);
        assert NonBlank(g) + NonBlank(Flat(rest)) == NonBlank(Flat(rest));
        HeldSpoils(Kept(carry, g), rest);
      } else {
        assert (NonBlank(g) + NonBlank(Flat(rest)))[0] == NonBlank(g)[0];
      }
    }
  }

  /** With at most one kind of fault the condition is that there is none. */
  lemma {:induction false} OneFaultSpoils(carry: string, groups: seq<seq<string>>)
    requires AllSpace(carry) && (AllWhole(groups) || SentinelLast(Flat(groups)))
    ensures AllComeOutWhole(carry, groups) <==> AllWhole(groups) && SentinelLast(Flat(groups))
    decreases groups
  {
    hide *;
    OneFaultStep(carry, groups);
    if groups != [] {
      var g, rest := groups[0], groups[1..];
      var n, m, kept := NonBlank(g), NonBlank(Flat(rest)), Kept(carry, g);
      if n == [] {
        assert n + m == m;
        OneFaultSpoils(kept, rest);
      } else {
        LastOnlySplits(n, m);
        if |n| == 1 && Trim(n[0]) == DONE {
          HeldSpoils(kept, rest);
        } else if |n| == 1 {
          OneFaultSpoils(kept, rest);
        }
      }
    }
  }

  lemma OneFaultStep(carry: string, groups: seq<seq<string>>)
    requires AllSpace(carry)
    ensures groups == [] ==> AllComeOutWhole(carry, groups) && AllWhole(groups) && SentinelLast(Flat(groups))
    ensures groups != [] ==>
              var g, rest := groups[0], groups[1..];
              var n, m, kept := NonBlank(g), NonBlank(Flat(rest)), Kept(carry, g);
              && (AllWhole(groups) <==> |n| <= 1 && AllWhole(rest))
              && (SentinelLast(Flat(groups)) <==> LastOnly(n + m)) && (SentinelLast(Flat(rest)) <==> LastOnly(m))
              && (AllComeOutWhole(carry, groups)
                  <==> (|n| <= 1 || (|n| == 2 && Trim(n[0]) == DONE)) && AllComeOutWhole(kept, rest))
              && (n == [] ==> AllSpace(kept))
              && (|n| == 1 ==> if Trim(n[0]) == DONE then Trim(kept) == DONE else AllSpace(kept))
  {
    assert NonBlank([]) == [];
    hide Trim, NonBlank, AllSpace, Kept, LastOnly;
    TrimEmpty(carry);
    if groups != [] {
      var g, rest := groups[0], groups[1..];
      NonBlankAppend(g, Flat(rest));
      WholeCons(groups);
      if NonBlank(g) == [] { BlankGroup(carry, g); } else { FreshGroup(carry, g); }
      TrimEmpty(Kept(carry, g));
    }
  }

  /** The decoder and the standard, on all LF and CRLF streams the decoder does not reject.
      The payloads are the standard's data buffers, trimmed, the blank ones dropped and an
      unterminated last one included, exactly when every event comes out whole.  That is:
      its data stands in one piece, not cut by a line of whitespace, with no sentinel kept
      from before; or the sentinel and one other piece make it up.  Where a stream has only
      one kind of fault, an event cut in two or data after the sentinel, it disagrees. */
  lemma DecoderMeetsStandardIff(s: string)
    requires PairedCR(s) && Decode(Sse, "", GoLines("", s)).Some?
    ensures var groups := Groups([], "", StdLines("", s));
            && (Decode(Sse, "", GoLines("", s)) == Some(Expected(StdEvents("", StdLines("", s))))
                <==> AllComeOutWhole("", groups))
            && (AllWhole(groups) || SentinelLast(Flat(groups)) ==>
                  (AllComeOutWhole("", groups) <==> AllWhole(groups) && SentinelLast(Flat(groups))))
  {
    hide Decode, Expected, Carried, Flat, Joined, SentinelLast, GoLines, PairedCR, AllWhole, AllComeOutWhole;
    var lines := GoLines("", s);
    LinesAgree("", s);
    FlushEmpty();
    LeadEqRefl("");
    DecoderFollowsEvents("", "", "", lines);
    var groups := Groups([], "", lines);
    GroupsJoin([], "", lines);
    GroupsFlatten([], "", lines);
    assert Buffered([]) + "" == "" && [] + StdEvents("", Blanked(lines)) == StdEvents("", Blanked(lines));
    EmptyIsSpace();
    hide *;
    CarriedIsExpectedIff("", groups);
    if AllWhole(groups) || SentinelLast(Flat(groups)) { OneFaultSpoils("", groups); }
  }

  /** A value as providers send it: not blank at either end. */
  predicate Solid(v: string) {
    v != "" && !IsSpace(v[0]) && !IsSpace(v[|v| - 1])
  }

  lemma TrimSolid(s: string)
    requires Solid(s)
    ensures Trim(s) == s
  {
  }

  /** strings.IndexByte finds the first one. */
  lemma {:induction false} IndexByteIs(s: string, c: char, i: nat)
    requires i < |s| && s[i] == c && c !in s[..i]
    ensures IndexByte(s, c) == i
  {
    if i > 0 {
      assert s[1..][..i - 1] == s[1..i];
      IndexByteIs(s[1..], c, i - 1);
    }
  }

  lemma FieldOf(sp: string, v: string)
    requires Solid(v) && (sp == "" || sp == " ")
    ensures SplitField("data:" + sp + v) == ("data", v) && Trim("data:" + sp + v) == "data:" + sp + v
  {
    var line := "data:" + sp + v;
    assert Solid(line);
    TrimSolid(line);
    hide Trim, TrimLeft, TrimRight, IsSpace;
    assert line[4] == ':' && line[..4] == "data" && line[5..] == sp + v;
    IndexByteIs(line, ':', 4);
    hide IndexByte;
    if sp == " " { assert (sp + v)[1..] == v; } else { assert sp + v == v; }
  }

  lemma FieldStep(data: string, sp: string, v: string, rest: seq<string>)
    requires Solid(v) && (sp == "" || sp == " ") && ByteLen(Extend(data, v)) <= MAX_EVENT_BYTES
    ensures Decode(Sse, data, ["data:" + sp + v] + rest) == Decode(Sse, Extend(data, v), rest)
  {
    FieldOf(sp, v);
    var all := ["data:" + sp + v] + rest;
    assert all[0] == "data:" + sp + v && all[1..] == rest;
  }

  lemma BlankStep(data: string, ws: string, rest: seq<string>)
    requires AllSpace(ws)
    ensures Decode(Sse, data, [ws] + rest)
            == if Flush(data).Some? then Prepend(Flush(data).value, Decode(Sse, "", rest)) else Decode(Sse, data, rest)
  {
    BlankIffTrim(ws);
    assert ([ws] + rest)[1..] == rest;
  }

  lemma StdFieldStep(buf: string, v: string, rest: seq<string>)
    requires Solid(v)
    ensures StdEvents(buf, ["data:" + v] + rest) == StdEvents(buf + v + "\n", rest)
  {
    assert "data:" + "" + v == "data:" + v;
    FieldOf("", v);
    assert (["data:" + v] + rest)[1..] == rest;
  }

  /** A line of whitespace is a field with a name the standard does not know. */
  lemma StdSpaceStep(buf: string, ws: string, rest: seq<string>)
    requires ws != "" && AllSpace(ws)
    ensures StdEvents(buf, [ws] + rest) == StdEvents(buf, rest)
  {
    assert IsSpace(ws[0]);
    assert IndexByte(ws, ':') < 0;
    assert ([ws] + rest)[1..] == rest;
  }

  lemma StdEnd(buf: string)
    requires buf != ""
    ensures StdEvents(buf, [""]) == [StripLF(buf)]
  {
    assert [""][1..] == [];
  }

  lemma DecodeEnd(v: string)
    requires Solid(v) && v != DONE
    ensures Flush(v) == Some(v) && Decode(Sse, v, [""]) == Some([v])
  {
    TrimSolid(v);
    FlushEmpty();
    assert [""] + [] == [""];
    BlankStep(v, "", []);
    assert [v] + [] == [v];
  }

  /** A line of mere whitespace is where decoder and standard part: the one ends an event
      there, the other ignores a field without a name. */
  lemma WhitespaceLineSplitsEvent(v: string, ws: string, w: string)
    requires Solid(v) && Solid(w) && v != DONE && w != DONE && ByteLen(v) <= MAX_EVENT_BYTES
             && ByteLen(w) <= MAX_EVENT_BYTES
    requires ws != "" && AllSpace(ws)
    ensures var lines := ["data:" + v] + ([ws] + (["data:" + w] + [""]));
            && Decode(Sse, "", lines) == Some([v, w])
            && StdEvents("", lines) == [v + "\n" + w]
  {
    hide Decode, StdEvents, Flush, SplitField, Trim, TrimLeft, TrimRight, IsSpace, ByteLen, Solid, AllSpace;
    var last := ["data:" + w] + [""];
    assert "data:" + "" + v == "data:" + v && "data:" + "" + w == "data:" + w;
    DecodeEnd(v);
    DecodeEnd(w);
    FieldStep("", "", w, [""]);
    BlankStep(v, ws, last);
    FieldStep("", "", v, [ws] + last);
    assert [v] + [w] == [v, w];
    StdFieldStep("", v, [ws] + last);
    StdSpaceStep("" + v + "\n", ws, last);
    StdFieldStep("" + v + "\n", w, [""]);
    var buf := "" + v + "\n" + w + "\n";
    StdEnd(buf);
    assert StripLF(buf) == v + "\n" + w;
  }

  lemma HeldSentinel(v: string)
    requires Solid(v)
    ensures var p := DONE + "\n" + v; Solid(p) && p != DONE && Extend(DONE, v) == p
    ensures Flush(DONE) == None && Solid(DONE) && Extend("", DONE) == DONE
  {
    var p := DONE + "\n" + v;
    assert p[0] == DONE[0] && p[|p| - 1] == v[|v| - 1] && |p| > |DONE|;
    TrimSolid(DONE);
  }

  /** Data after the sentinel comes out with the sentinel still in front of it. */
  lemma EventAfterSentinelIsSpoiled(v: string)
    requires Solid(v) && v != DONE && ByteLen(DONE + "\n" + v) <= MAX_EVENT_BYTES && ByteLen(DONE) <= MAX_EVENT_BYTES
    ensures var lines := ["data:" + DONE] + ([""] + (["data:" + v] + [""]));
            && Decode(Sse, "", lines) == Some([DONE + "\n" + v])
            && Expected(StdEvents("", lines)) == [v]
  {
    hide *;
    HeldSentinel(v);
    var last, p := ["data:" + v] + [""], DONE + "\n" + v;
    EmptyIsSpace();
    DecodeHeld("", v);
    assert "" + DONE + "\n" == DONE + "\n" && "" + v + "\n" == v + "\n";
    StdFieldStep("", DONE, [""] + last);
    StdDispatch(DONE, last);
    StdFieldStep("", v, [""]);
    StdLast(v);
    ExpectedOfTwo(DONE, v);
  }

  /** When both go wrong at once they can cancel: the standard's event, which contains the
      sentinel and a line of whitespace, comes out as it is. */
  lemma BothFaultsCanCancel(v: string, ws: string)
    requires Solid(v) && v != DONE && ByteLen(DONE + "\n" + v) <= MAX_EVENT_BYTES && ByteLen(DONE) <= MAX_EVENT_BYTES
    requires ws != "" && AllSpace(ws)
    ensures var lines := ["data:" + DONE] + ([ws] + (["data:" + v] + [""]));
            Decode(Sse, "", lines) == Some([DONE + "\n" + v]) == Some(Expected(StdEvents("", lines)))
  {
    hide *;
    HeldSentinel(v);
    var last, p := ["data:" + v] + [""], DONE + "\n" + v;
    DecodeHeld(ws, v);
    assert "" + DONE + "\n" == DONE + "\n" && DONE + "\n" + v + "\n" == p + "\n";
    StdFieldStep("", DONE, [ws] + last);
    StdSpaceStep(DONE + "\n", ws, last);
    StdFieldStep(DONE + "\n", v, [""]);
    StdLast(p);
    ExpectedOfOne(p);
  }

  lemma EmptyIsSpace()
    ensures AllSpace("")
  {
  }

  lemma DecodeHeld(ws: string, v: string)
    requires Solid(v) && ByteLen(DONE + "\n" + v) <= MAX_EVENT_BYTES && ByteLen(DONE) <= MAX_EVENT_BYTES && AllSpace(ws)
    ensures Decode(Sse, "", ["data:" + DONE] + ([ws] + (["data:" + v] + [""]))) == Some([DONE + "\n" + v])
  {
    hide *;
    HeldSentinel(v);
    var last := ["data:" + v] + [""];
    assert "data:" + "" + DONE == "data:" + DONE && "data:" + "" + v == "data:" + v;
    FieldStep("", "", DONE, [ws] + last);
    BlankStep(DONE, ws, last);
    FieldStep(DONE, "", v, [""]);
    DecodeEnd(DONE + "\n" + v);
  }

  lemma StdDispatch(e: string, rest: seq<string>)
    ensures StdEvents(e + "\n", [""] + rest) == [e] + StdEvents("", rest)
  {
    assert ([""] + rest)[1..] == rest;
    assert StripLF(e + "\n") == e;
  }

  lemma StdLast(e: string)
    ensures StdEvents(e + "\n", [""]) == [e]
  {
    assert StripLF(e + "\n") == e;
    StdEnd(e + "\n");
  }

  lemma ExpectedOfOne(v: string)
    requires Solid(v) && v != DONE
    ensures Expected([v]) == [v]
  {
    TrimSolid(v);
    assert [v][1..] == [] && [v] + [] == [v];
  }

  lemma ExpectedOfTwo(a: string, v: string)
    requires Flush(a) == None && Solid(v) && v != DONE
    ensures Expected([a] + [v]) == [v]
  {
    ExpectedOfOne(v);
    assert ([a] + [v])[1..] == [v];
  }

  function TotalBytes(lines: seq<string>): nat {
    if lines == [] then 0 else ByteLen(lines[0]) + 1 + TotalBytes(lines[1..])
  }

  lemma ValueIsShorter(line: string)
    ensures ByteLen(SplitField(line).1) <= ByteLen(line)
  {
    var i := IndexByte(line, ':');
    if i >= 0 {
      var v := line[i + 1..];
      assert line == line[..i + 1] + v;
      ByteLenAppend(line[..i + 1], v);
    }
  }

  /** No stream shorter than the event limit is ever rejected. */
  lemma {:induction false} SmallStreamsFit(format: Format, data: string, lines: seq<string>)
    requires ByteLen(data) + TotalBytes(lines) <= MAX_EVENT_BYTES
    ensures Decode(format, data, lines).Some?
    decreases lines
  {
    if lines != [] {
      var v := SplitField(lines[0]).1;
      ValueIsShorter(lines[0]);
      ByteLenAppend(data, "\n");
      ByteLenAppend(data + "\n", v);
      assert ByteLen("\n") == 1;
      match OnLine(format, data, lines[0])
      case Go(f, d) => SmallStreamsFit(f, d, lines[1..]);
      case Emit(p, f) => SmallStreamsFit(f, "", lines[1..]);
      case _ =>
    }
  }

  // ---- Sniffing ----

  /** What the first conclusive line says, if any does. */
  function Framing(lines: seq<string>): Format
    decreases lines
  {
    if lines == [] then Auto else if Sniff(lines[0]) != Auto then Sniff(lines[0]) else Framing(lines[1..])
  }

  lemma TrimKeepsDataField(rest: string)
    ensures StartsWith(Trim("data:" + rest), "data:")
  {
    var line := "data:" + rest;
    assert TrimLeft(line) == line;
    if AllSpace(rest) {
      TrimRightDropsSuffix("data:", rest);
    } else {
      TrimRightAppend("data:", rest);
    }
  }

  /** A line that settles nothing has no effect on an SSE decoder between events. */
  lemma InconclusiveIsInert(line: string)
    requires Sniff(line) == Auto
    ensures OnLine(Sse, "", line) == Go(Sse, "")
  {
    FlushEmpty();
    if Trim(line) != "" {
      if line[0] == ':' { TrimRightKeepsHead(line); assert false; }
      if SplitField(line).0 == "data" {
        var i := IndexByte(line, ':');
        if i >= 0 {
          assert line == "data:" + line[i + 1..];
          TrimKeepsDataField(line[i + 1..]);
          assert false;
        }
        assert Extend("", "") == "" && ByteLen("") == 0;
      }
    }
  }

  /** Unless the first conclusive line looks like NDJSON, sniffing the framing gives the
      same payloads as being told it is SSE. */
  lemma {:induction false} SniffedIsForced(lines: seq<string>)
    requires Framing(lines) != Ndjson
    ensures Decode(Auto, "", lines) == Decode(Sse, "", lines)
    decreases lines
  {
    if lines != [] && Sniff(lines[0]) == Auto {
      InconclusiveIsInert(lines[0]);
      SniffedIsForced(lines[1..]);
    }
  }

  // ---- Printing ----

  /** One write of the server's stream: a payload or a keepalive. */
  datatype Frame = Data(payload: string) | Comment(text: string)

  function PrintFrame(f: Frame): string {
    match f
    case Data(p) => "data: " + p + "\n\n"
    case Comment(t) => ": " + t + "\n\n"
  }

  const TERMINATOR := "data: [DONE]\n\n"

  function Print(frames: seq<Frame>): string {
    if frames == [] then TERMINATOR else PrintFrame(frames[0]) + Print(frames[1..])
  }

  predicate OneLine(s: string) {
    '\n' !in s && '\r' !in s
  }

  /** Encoded JSON: one line that neither starts nor ends with whitespace. */
  predicate Printable(f: Frame) {
    match f
    case Data(p) => OneLine(p) && Solid(p) && p != DONE && ByteLen(p) <= MAX_EVENT_BYTES
    case Comment(t) => OneLine(t)
  }

  function Payloads(frames: seq<Frame>): seq<string> {
    if frames == [] then [] else (if frames[0].Data? then [frames[0].payload] else []) + Payloads(frames[1..])
  }

  lemma {:induction false} LineEnds(acc: string, x: string, rest: string)
    requires OneLine(x) && '\r' !in acc
    ensures GoLines(acc, x + "\n" + rest) == [acc + x] + GoLines("", rest)
    decreases x
  {
    var s := x + "\n" + rest;
    if x == "" {
      assert s[0] == '\n' && s[1..] == rest && acc + x == acc;
    } else {
      assert s[0] == x[0] && s[1..] == x[1..] + "\n" + rest;
      LineEnds(acc + [x[0]], x[1..], rest);
      assert acc + [x[0]] + x[1..] == acc + x;
    }
  }

  lemma FrameLines(x: string, rest: string)
    requires OneLine(x)
    ensures GoLines("", x + "\n\n" + rest) == [x, ""] + GoLines("", rest)
  {
    assert x + "\n\n" + rest == x + "\n" + ("" + "\n" + rest);
    LineEnds("", x, "" + "\n" + rest);
    LineEnds("", "", rest);
    assert "" + x == x && "" + "" == "";
  }

  lemma DataLine(format: Format, p: string, lines: seq<string>)
    requires format != Ndjson && Solid(p) && ByteLen(p) <= MAX_EVENT_BYTES
    ensures Decode(format, "", ["data: " + p, ""] + lines)
            == if p == DONE then Decode(Sse, p, lines) else Prepend(p, Decode(Sse, "", lines))
  {
    assert "data:" + " " + p == "data: " + p && "data:" + (" " + p) == "data: " + p;
    FieldStep("", " ", p, [""] + lines);
    BlankStep(p, "", lines);
    TrimSolid(p);
    TrimKeepsDataField(" " + p);
    assert ["data: " + p, ""] + lines == ["data: " + p] + ([""] + lines);
    SniffedFirst(format, "data: " + p, [""] + lines);
  }

  /** Once its first line has settled the framing, a sniffing reader is an SSE reader. */
  lemma SniffedFirst(format: Format, line: string, rest: seq<string>)
    requires format != Ndjson && Sniff(line) == Sse
    ensures Decode(format, "", [line] + rest) == Decode(Sse, "", [line] + rest)
  {
  }

  lemma CommentLine(format: Format, t: string, lines: seq<string>)
    requires format != Ndjson && OneLine(t)
    ensures Decode(format, "", [": " + t, ""] + lines) == Decode(Sse, "", lines)
  {
    var line := ": " + t;
    TrimRightKeepsHead(line);
    assert TrimLeft(line) == line;
    var all := [line, ""] + lines;
    assert all[1..] == [""] + lines && ([""] + lines)[1..] == lines;
    assert OnLine(format, "", line) == Go(Sse, "");
    BlankIffTrim("");
    FlushEmpty();
  }

  /** Whatever keepalives fall between frames, and whether the reader is told the framing
      or guesses it, the payloads come back in the order they were written, and then the
      stream ends. */
  lemma TerminatorEnds(format: Format)
    requires format != Ndjson
    ensures Decode(format, "", GoLines("", TERMINATOR)) == Some([])
  {
    assert TERMINATOR == "data: [DONE]" + "\n\n" + "" && "data: " + DONE == "data: [DONE]";
    FrameLines("data: [DONE]", "");
    assert GoLines("", "") == [];
    DataLine(format, DONE, []);
    TrimSolid(DONE);
  }

  lemma {:induction false} PrintedFramesComeBack(format: Format, frames: seq<Frame>)
    requires format != Ndjson && forall k | 0 <= k < |frames| :: Printable(frames[k])
    ensures Decode(format, "", GoLines("", Print(frames))) == Some(Payloads(frames))
    decreases frames
  {
    if frames == [] {
      TerminatorEnds(format);
    } else {
      hide Decode, GoLines;
      var rest := Print(frames[1..]);
      match frames[0]
      case Data(p) =>
        assert Print(frames) == ("data: " + p) + "\n\n" + rest;
        FrameLines("data: " + p, rest);
        DataLine(format, p, GoLines("", rest));
        PrintedFramesComeBack(Sse, frames[1..]);
      case Comment(t) =>
        assert Print(frames) == (": " + t) + "\n\n" + rest;
        FrameLines(": " + t, rest);
        CommentLine(format, t, GoLines("", rest));
        PrintedFramesComeBack(Sse, frames[1..]);
        assert [] + Payloads(frames[1..]) == Payloads(frames[1..]);
    }
  }

  /** A stream of bare JSON: one payload a line, perhaps with empty lines between them, up
      to an end. */
  function PrintRows(rows: seq<string>, end: string): string {
    if rows == [] then end else rows[0] + "\n" + PrintRows(rows[1..], end)
  }

  /** Nothing, or the sentinel and anything behind it. */
  function RowsEnd(behind: Option<string>): string {
    match behind
    case None => ""
    case Some(more) => DONE + "\n" + more
  }

  function NonEmpty(rows: seq<string>): seq<string> {
    if rows == [] then [] else (if rows[0] == "" then [] else [rows[0]]) + NonEmpty(rows[1..])
  }

  /** An encoded object or array. */
  predicate IsRow(p: string) {
    OneLine(p) && Solid(p) && (p[0] == '{' || p[0] == '[') && p != DONE
  }

  lemma RowIsEmitted(format: Format, p: string, lines: seq<string>)
    requires format != Sse && IsRow(p)
    ensures Decode(format, "", [p] + lines) == Prepend(p, Decode(Ndjson, "", lines))
  {
    TrimSolid(p);
    assert !StartsWith(p, "data:") && !StartsWith(p, "event:") && !StartsWith(p, "id:") && !StartsWith(p, "retry:");
    hide Trim, Solid, OneLine, Flush;
    assert OnLine(format, "", p) == Emit(p, Ndjson);
  }

  lemma EmptyRowIsPassed(format: Format, lines: seq<string>)
    requires format != Sse
    ensures Decode(format, "", [""] + lines) == Decode(format, "", lines)
  {
    assert OnLine(format, "", "") == Go(format, "");
  }

  /** Rows need no framing: whether the reader is told so or guesses it from the first of
      them, it gives back every row, whole and in order, up to the end of the stream or to the
      sentinel, whatever stands behind that. */
  lemma {:induction false} RowsComeBack(format: Format, rows: seq<string>, behind: Option<string>)
    requires format != Sse && forall p | p in rows :: p == "" || IsRow(p)
    ensures Decode(format, "", GoLines("", PrintRows(rows, RowsEnd(behind)))) == Some(NonEmpty(rows))
    decreases rows
  {
    hide Decode, GoLines, Solid;
    if rows == [] {
      NoRows(format, behind);
    } else {
      var p, rest := rows[0], rows[1..];
      var printed := PrintRows(rest, RowsEnd(behind));
      assert "" + p == p && p in rows;
      LineEnds("", p, printed);
      if p == "" {
        EmptyRowIsPassed(format, GoLines("", printed));
        RowsComeBack(format, rest, behind);
        assert [] + NonEmpty(rest) == NonEmpty(rest);
      } else {
        RowIsEmitted(format, p, GoLines("", printed));
        RowsComeBack(Ndjson, rest, behind);
      }
    }
  }

  lemma NoRows(format: Format, behind: Option<string>)
    requires format != Sse
    ensures Decode(format, "", GoLines("", RowsEnd(behind))) == Some([])
  {
    match behind
    case None =>
    case Some(more) =>
      TrimSolid(DONE);
      hide Trim, Solid, Flush;
      assert DONE + "\n" + more == "[DONE]" + "\n" + more && "" + DONE == DONE;
      LineEnds("", DONE, more);
      assert OnLine(format, "", DONE) == Halt;
  }

  lemma PrintAppends(before: string, frames: seq<Frame>)
    requires frames != []
    ensures before + PrintFrame(frames[0]) + Print(frames[1..]) == before + Print(frames)
  {
  }

  lemma ConcatSnoc(pieces: seq<string>, piece: string)
    ensures Concat(pieces + [piece]) == Concat(pieces) + piece
  {
    ConcatAppend(pieces, [piece]);
    assert Concat([piece]) == piece + Concat([]);
  }

  /** splitRunes: pieces of at most n, none empty, that add up to the text. */
  method SplitRunes(text: string, n: int) returns (out: seq<string>)
    ensures Concat(out) == text
    ensures forall k | 0 <= k < |out| :: out[k] != "" && (n > 0 ==> |out[k]| <= n)
  {
    if text == "" { return []; }
    if n <= 0 || |text| <= n {
      assert [text][1..] == [];
      assert text + Concat([]) == text;
      return [text];
    }
    out := [];
    var piece := "";
    for i := 0 to |text|
      invariant Concat(out) + piece == text[..i] && |piece| < n
      invariant forall k | 0 <= k < |out| :: out[k] != "" && |out[k]| <= n
    {
      hide Concat;
      assert text[..i + 1] == text[..i] + [text[i]];
      piece := piece + [text[i]];
      if |piece| == n {
        ConcatSnoc(out, piece);
        out := out + [piece];
        piece := "";
      }
    }
    assert text[..|text|] == text;
    if piece != "" {
      ConcatSnoc(out, piece);
      out := out + [piece];
    }
  }

  // ---- The objects ----

  datatype Result = Payload(bytes: string) | Eof | TooLarge

  class Decoder {
    var pieces: seq<Piece>
    var format: Format
    var data: string

    constructor (pieces: seq<Piece>, format: Format)
      ensures this.pieces == pieces && this.format == format && data == ""
    {
      this.pieces, this.format, data := pieces, format, "";
    }

    method NextLine() returns (r: Result)
      modifies this`pieces
      ensures match ReadLine("", false, old(pieces))
              case Line(l, rest) => r == Payload(l) && pieces == rest
              case End => r == Eof && pieces == []
              case TooBig => r == TooLarge
    {
      var buf, begun := "", false;
      while pieces != []
        invariant ReadLine("", false, old(pieces)) == ReadLine(buf, begun, pieces)
        decreases pieces
      {
        var p := pieces[0];
        pieces := pieces[1..];
        if !p.more && !begun { return Payload(p.chunk); }
        buf, begun := buf + p.chunk, true;
        if ByteLen(buf) > MAX_EVENT_BYTES { return TooLarge; }
        if !p.more { return Payload(buf); }
      }
      return if buf != "" then Payload(buf) else Eof;
    }

    /** One payload: the first of what remains to be decoded. */
    method Next() returns (r: Result)
      modifies this
      ensures DecodePieces(old(format), "", old(pieces)) ==
              match r
              case Payload(p) => Prepend(p, DecodePieces(format, "", pieces))
              case Eof => Some([])
              case TooLarge => None
    {
      data := "";
      while true
        invariant DecodePieces(old(format), "", old(pieces)) == DecodePieces(format, data, pieces)
        decreases |pieces|
      {
        ghost var before := pieces;
        var line := NextLine();
        match line {
          case TooLarge => return TooLarge;
          case Eof =>
            var last := Flush(data);
            if last.Some? {
              assert [last.value] + [] == [last.value] && DecodePieces(format, "", pieces) == Some([]);
              return Payload(last.value);
            }
            return Eof;
          case Payload(text) =>
            assert before != [];
            ReadLineShrinks("", false, before);
            match OnLine(format, data, text) {
              case Go(f, d) => format, data := f, d;
              case Emit(p, f) =>
                format, data := f, "";
                return Payload(p);
              case Halt => return Eof;
              case Overflow => return TooLarge;
            }
        }
      }
    }
  }

  /** The server's writer: frames go out whole until a write fails, and then nothing. */
  class SseStream {
    var written: string
    var failed: bool

    constructor ()
      ensures written == "" && !failed
    {
      written, failed := "", false;
    }

    /** accepted is how much of the text the connection takes. */
    method Raw(text: string, accepted: nat)
      modifies this
      ensures failed <==> old(failed) || accepted < |text|
      ensures written
              == old(written) + (if old(failed) then "" else if accepted < |text| then text[..accepted] else text)
    {
      if failed { return; }
      if accepted < |text| {
        written, failed := written + text[..accepted], true;
      } else {
        written := written + text;
      }
    }

    /** Frames and the terminator, as long as the connection takes everything. */
    method SendAll(frames: seq<Frame>)
      requires !failed
      modifies this
      ensures !failed && written == old(written) + Print(frames)
      decreases frames
    {
      var text := TERMINATOR;
      if frames != [] { text := PrintFrame(frames[0]); }
      Raw(text, |text|);
      if frames != [] {
        SendAll(frames[1..]);
        PrintAppends(old(written), frames);
      }
    }
  }
}
