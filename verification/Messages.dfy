/** The conversation the server keeps and re-sends: messages, tool calls, and the
    pairing of calls with results that strict providers insist on. */
module Messages {
  import opened Wrappers
  import opened Text

  datatype Role =
    | System
    | Developer
    | User
    | Assistant
    | Tool
    | OtherRole(name: string)

  datatype Part = Part(kind: string, text: string, image: string)

  /** A message's content field.  Absent, null and "" are three different things
      on the wire and all read as "". */
  datatype Content =
    | Absent
    | Null
    | Text(text: string)
    | Parts(parts: seq<Part>)

  function PartTexts(parts: seq<Part>): string {
    if parts == [] then []
    else
      (if parts[0].kind == "text" || parts[0].text != "" then parts[0].text else "")
      + PartTexts(parts[1..])
  }

  /** Content.String. */
  function Flatten(c: Content): string {
    match c
    case Text(t) => t
    case Parts(ps) => PartTexts(ps)
    case _ => ""
  }

  /** What a tool call asks for, once its JSON arguments have been decoded.  Unfit is a
      call no tool will run: its tool is unknown (None), or rejects the arguments (Some)
      and says whether its calls may overlap. */
  datatype Invocation =
    | Read(path: string, offset: int, limit: int)
    | Search(path: string)
    | Edit(path: string, oldString: string, newString: string, replaceAll: bool)
    | Write(path: string, content: string)
    | Bash(command: string)
    | Unfit(path: string, tool: Option<bool>)

  datatype ToolCall = ToolCall(id: string, name: string, arguments: string, invocation: Invocation)

  /** The "path" argument of a call, empty if it has none. */
  function ArgPath(c: ToolCall): string {
    if c.invocation.Bash? then "" else c.invocation.path
  }

  datatype Message = Message(
    role: Role,
    content: Content,
    name: string,
    toolCalls: seq<ToolCall>,
    toolCallID: string,
    reasoning: string,
    extra: map<string, string>)

  function Plain(role: Role, text: string): Message {
    Message(role, Content.Text(text), "", [], "", "", map[])
  }

  /** The tool message that answers one call. */
  function ToolMessage(id: string, text: string): Message {
    Message(Tool, Content.Text(text), "", [], id, "", map[])
  }

  /** The results answer the calls one for one, in the order of the calls. */
  predicate Answers(calls: seq<ToolCall>, results: seq<Message>) {
    && |calls| == |results|
    && forall k | 0 <= k < |calls| ::
         results[k].role == Tool && results[k].toolCallID == calls[k].id && results[k].toolCalls == []
  }

  /** The ids a history still owes results for, or None once the order is broken. */
  type Owed = Option<seq<string>>

  function Ids(calls: seq<ToolCall>): seq<string> {
    seq(|calls|, k requires 0 <= k < |calls| => calls[k].id)
  }

  function Owe(o: Owed, m: Message): Owed {
    if o.None? then None
    else if o.value != [] then
      if m.role == Tool && m.toolCallID == o.value[0] && m.toolCalls == [] then Some(o.value[1..]) else None
    else if m.role == Tool || (m.toolCalls != [] && m.role != Assistant) then None
    else Some(Ids(m.toolCalls))
  }

  function Scan(o: Owed, h: seq<Message>): Owed
    decreases h
  {
    if h == [] then o else Scan(Owe(o, h[0]), h[1..])
  }

  /** A history a strict provider accepts: read from the front, every call is
      answered straight away and in order, and nothing else is answered. */
  predicate WellPaired(h: seq<Message>) {
    Scan(Some([]), h) == Some([])
  }

  /** The same demand, stated by position: a message with calls c1..cn is an
      assistant message, the n messages after it answer c1..cn in order, and every
      tool message is one of those. */
  ghost predicate PairedByPosition(h: seq<Message>) {
    && (forall i | 0 <= i < |h| && h[i].toolCalls != [] ::
          h[i].role == Assistant && i + |h[i].toolCalls| < |h|
          && Answers(h[i].toolCalls, h[i + 1..i + 1 + |h[i].toolCalls|]))
    && (forall i | 0 <= i < |h| && h[i].role == Tool :: exists j :: IsResultOf(h, i, j))
  }

  ghost predicate IsResultOf(h: seq<Message>, i: int, j: int) {
    0 <= j < i < |h| && i <= j + |h[j].toolCalls| && h[i].toolCallID == h[j].toolCalls[i - j - 1].id
  }

  lemma {:induction false} ScanAppend(o: Owed, a: seq<Message>, b: seq<Message>)
    ensures Scan(o, a + b) == Scan(Scan(o, a), b)
    decreases a
  {
    if a == [] {
      assert a + b == b;
    } else {
      assert (a + b)[1..] == a[1..] + b;
      ScanAppend(Owe(o, a[0]), a[1..], b);
    }
  }

  lemma {:induction false} ScanBroken(h: seq<Message>)
    ensures Scan(None, h) == None
  {
    if h != [] {
      ScanBroken(h[1..]);
    }
  }

  lemma {:induction false} ScanAnswers(calls: seq<ToolCall>, results: seq<Message>)
    requires Answers(calls, results)
    ensures Scan(Some(Ids(calls)), results) == Some([])
  {
    if calls != [] {
      assert Ids(calls)[1..] == Ids(calls[1..]);
      ScanAnswers(calls[1..], results[1..]);
    }
  }

  /** While ids are owed, the messages that follow must be their results. */
  lemma {:induction false} ScanPays(calls: seq<ToolCall>, h: seq<Message>)
    requires Scan(Some(Ids(calls)), h) == Some([])
    ensures |calls| <= |h| && Answers(calls, h[..|calls|]) && WellPaired(h[|calls|..])
  {
    if calls == [] {
      assert h[0..] == h;
    } else {
      if h == [] || Owe(Some(Ids(calls)), h[0]) == None {
        if h != [] { ScanBroken(h[1..]); }
        assert false;
      }
      assert Ids(calls)[1..] == Ids(calls[1..]);
      ScanPays(calls[1..], h[1..]);
      var n := |calls|;
      assert h[1..][n - 1..] == h[n..];
      forall k | 0 <= k < n
        ensures h[..n][k].role == Tool && h[..n][k].toolCallID == calls[k].id && h[..n][k].toolCalls == []
      {
        if k > 0 { assert h[..n][k] == h[1..][..n - 1][k - 1] && calls[k] == calls[1..][k - 1]; }
      }
    }
  }

  lemma PairedAppend(a: seq<Message>, b: seq<Message>)
    requires WellPaired(a) && WellPaired(b)
    ensures WellPaired(a + b)
  {
    ScanAppend(Some([]), a, b);
  }

  /** Cutting where no tool message follows separates no call from its results. */
  lemma PairedCut(h: seq<Message>, i: nat)
    requires WellPaired(h) && i <= |h|
    requires i == |h| || h[i].role != Tool
    ensures WellPaired(h[..i]) && WellPaired(h[i..])
  {
    assert h == h[..i] + h[i..];
    ScanAppend(Some([]), h[..i], h[i..]);
    var o := Scan(Some([]), h[..i]);
    if o != Some([]) {
      assert i < |h| ==> Owe(o, h[i..][0]) == None;
      if i < |h| { ScanBroken(h[i..][1..]); }
    }
  }

  /** Same roles, calls and answered ids, whatever the contents. */
  ghost predicate SameShape(a: seq<Message>, b: seq<Message>) {
    && |a| == |b|
    && forall i | 0 <= i < |a| ::
         a[i].role == b[i].role && a[i].toolCalls == b[i].toolCalls && a[i].toolCallID == b[i].toolCallID
  }

  lemma {:induction false} ScanByShape(o: Owed, a: seq<Message>, b: seq<Message>)
    requires SameShape(a, b)
    ensures Scan(o, a) == Scan(o, b)
    decreases a
  {
    if a != [] {
      ScanByShape(Owe(o, a[0]), a[1..], b[1..]);
    }
  }

  /** A single message that neither calls a tool nor answers one. */
  lemma PairedSingle(m: Message)
    requires m.role != Tool && m.toolCalls == []
    ensures WellPaired([m])
  {
    PairedBlock(m, []);
    assert [m] + [] == [m];
  }

  /** A non-empty paired history starts with one message and the results of its calls. */
  lemma PairedHead(h: seq<Message>)
    requires WellPaired(h) && h != []
    ensures h[0].role != Tool && (h[0].toolCalls != [] ==> h[0].role == Assistant)
    ensures var n := |h[0].toolCalls|;
            && n < |h| && Answers(h[0].toolCalls, h[1..n + 1]) && WellPaired(h[n + 1..])
            && forall k | 0 < k <= n :: h[k].role == Tool && h[k].toolCalls == []
  {
    if Owe(Some([]), h[0]) == None {
      ScanBroken(h[1..]);
    }
    var n := |h[0].toolCalls|;
    ScanPays(h[0].toolCalls, h[1..]);
    assert h[1..][..n] == h[1..n + 1] && h[1..][n..] == h[n + 1..];
    ResultsInPlace(h, 0);
  }

  lemma ResultsInPlace(h: seq<Message>, i: nat)
    requires i < |h| && i + |h[i].toolCalls| < |h|
    requires Answers(h[i].toolCalls, h[i + 1..i + 1 + |h[i].toolCalls|])
    ensures forall j | i < j <= i + |h[i].toolCalls| :: h[j].role == Tool && h[j].toolCalls == []
  {
    var results := h[i + 1..i + 1 + |h[i].toolCalls|];
    forall j | i < j <= i + |h[i].toolCalls|
      ensures h[j].role == Tool && h[j].toolCalls == []
    {
      assert h[j] == results[j - i - 1];
    }
  }

  lemma SliceOfTail(h: seq<Message>, n: nat, lo: nat, hi: nat)
    requires n <= |h| && lo <= hi <= |h| - n
    ensures h[n..][lo..hi] == h[n + lo..n + hi]
  {
  }

  lemma {:induction false} CallsAreAnswered(h: seq<Message>, i: nat)
    requires WellPaired(h) && i < |h| && h[i].toolCalls != []
    ensures h[i].role == Assistant && i + |h[i].toolCalls| < |h|
    ensures Answers(h[i].toolCalls, h[i + 1..i + 1 + |h[i].toolCalls|])
    decreases |h|
  {
    PairedHead(h);
    if i > 0 {
      var n := |h[0].toolCalls|;
      if i <= n {
        assert false;
      } else {
        CallsAreAnswered(h[n + 1..], i - (n + 1));
        SliceOfTail(h, n + 1, i - n, i - n + |h[i].toolCalls|);
      }
    }
  }

  lemma {:induction false} ResultHasItsCall(h: seq<Message>, i: nat) returns (j: nat)
    requires WellPaired(h) && i < |h| && h[i].role == Tool
    ensures IsResultOf(h, i, j)
    decreases |h|
  {
    PairedHead(h);
    var n := |h[0].toolCalls|;
    j := 0;
    if i <= n {
      assert h[i] == h[1..n + 1][i - 1];
    } else {
      j := ResultHasItsCall(h[n + 1..], i - (n + 1));
      j := j + n + 1;
    }
  }

  lemma PairedMeansByPosition(h: seq<Message>)
    requires WellPaired(h)
    ensures PairedByPosition(h)
  {
    forall i | 0 <= i < |h| && h[i].toolCalls != []
      ensures h[i].role == Assistant && i + |h[i].toolCalls| < |h|
      ensures Answers(h[i].toolCalls, h[i + 1..i + 1 + |h[i].toolCalls|])
    {
      CallsAreAnswered(h, i);
    }
    forall i | 0 <= i < |h| && h[i].role == Tool
      ensures exists j :: IsResultOf(h, i, j)
    {
      var j := ResultHasItsCall(h, i);
    }
  }

  /** After the results of the message at i comes a message that is no result. */
  lemma NextIsNoResult(h: seq<Message>, i: nat)
    requires PairedByPosition(h) && i < |h| && h[i].role != Tool
    requires i + |h[i].toolCalls| + 1 < |h|
    ensures h[i + |h[i].toolCalls| + 1].role != Tool
  {
    var n := |h[i].toolCalls|;
    if h[i + n + 1].role == Tool {
      var j :| IsResultOf(h, i + n + 1, j);
      if h[i].toolCalls != [] { ResultsInPlace(h, i); }
      if h[j].toolCalls != [] { ResultsInPlace(h, j); }
    }
  }

  lemma {:induction false} ByPositionMeansPaired(h: seq<Message>, i: nat)
    requires PairedByPosition(h) && i <= |h|
    requires i < |h| ==> h[i].role != Tool
    ensures WellPaired(h[i..])
    decreases |h| - i
  {
    assert WellPaired([]);
    hide WellPaired;
    if i < |h| {
      var n := |h[i].toolCalls|;
      var next := i + n + 1;
      assert h[i + 1..next] == [] || n > 0;
      if next < |h| { NextIsNoResult(h, i); }
      ByPositionMeansPaired(h, next);
      var head := [h[i]] + h[i + 1..next];
      assert h[i..] == head + h[next..];
      PairedBlock(h[i], h[i + 1..next]);
      PairedAppend(head, h[next..]);
    }
  }

  /** A message and the results of its calls, if it has any. */
  lemma PairedBlock(m: Message, results: seq<Message>)
    requires m.role != Tool && (m.toolCalls != [] ==> m.role == Assistant)
    requires Answers(m.toolCalls, results)
    ensures WellPaired([m] + results)
  {
    ScanAnswers(m.toolCalls, results);
    assert ([m] + results)[1..] == results;
  }

  /** The scan accepts exactly the histories the positional demand allows. */
  lemma PairedIffByPosition(h: seq<Message>)
    ensures WellPaired(h) <==> PairedByPosition(h)
  {
    if WellPaired(h) { PairedMeansByPosition(h); }
    if PairedByPosition(h) {
      assert forall j :: !IsResultOf(h, 0, j);
      ByPositionMeansPaired(h, 0);
      assert h[0..] == h;
    }
  }

  /** No two calls anywhere in the history carry the same id. */
  ghost predicate UniqueIds(h: seq<Message>) {
    forall i, k, i', k' |
      && 0 <= i < |h| && 0 <= k < |h[i].toolCalls|
      && 0 <= i' < |h| && 0 <= k' < |h[i'].toolCalls|
      && h[i].toolCalls[k].id == h[i'].toolCalls[k'].id ::
      i == i' && k == k'
  }

  /** The calls are new to the history and to each other. */
  ghost predicate FreshCalls(h: seq<Message>, calls: seq<ToolCall>) {
    && (forall k, k' | 0 <= k < |calls| && 0 <= k' < |calls| :: calls[k].id == calls[k'].id ==> k == k')
    && (forall i, j, k | 0 <= i < |h| && 0 <= j < |h[i].toolCalls| && 0 <= k < |calls| ::
          h[i].toolCalls[j].id != calls[k].id)
  }

  /** A message of the one who runs the conversation, under either of its names. */
  predicate IsInstruction(m: Message) {
    m.role == System || m.role == Developer
  }

  /** SplitSystem (internal/agent/prompt.go): the caller's non-blank instructions,
      trimmed, and the conversation without them. */
  function SystemTexts(ms: seq<Message>): seq<string> {
    if ms == [] then []
    else if IsInstruction(ms[0]) then
      (if Trim(Flatten(ms[0].content)) != "" then [Trim(Flatten(ms[0].content))] else [])
      + SystemTexts(ms[1..])
    else SystemTexts(ms[1..])
  }

  function WithoutSystem(ms: seq<Message>): seq<Message> {
    if ms == [] then []
    else if IsInstruction(ms[0]) then WithoutSystem(ms[1..])
    else [ms[0]] + WithoutSystem(ms[1..])
  }

  /** What is left is everything else, in order. */
  lemma {:induction false} WithoutSystemAppend(a: seq<Message>, b: seq<Message>)
    ensures WithoutSystem(a + b) == WithoutSystem(a) + WithoutSystem(b)
    ensures |a| == 1 ==> WithoutSystem(a) == if a[0].role == System || a[0].role == Developer then [] else a
    decreases a
  {
    if a == [] {
      assert a + b == b;
    } else {
      assert (a + b)[1..] == a[1..] + b;
      WithoutSystemAppend(a[1..], b);
      if |a| == 1 { assert a[1..] == [] && a == [a[0]]; }
    }
  }

  /** Taking instructions out of a conversation leaves the order of calls and
      results as it was. */
  lemma {:induction false} WithoutSystemScan(o: Owed, ms: seq<Message>)
    requires Scan(o, ms) == Some([])
    ensures Scan(o, WithoutSystem(ms)) == Some([])
    decreases ms
  {
    if ms != [] {
      if Owe(o, ms[0]) == None { ScanBroken(ms[1..]); }
      WithoutSystemScan(Owe(o, ms[0]), ms[1..]);
      if !IsInstruction(ms[0]) {
        assert WithoutSystem(ms)[1..] == WithoutSystem(ms[1..]);
      } else {
        assert Owe(o, ms[0]) == Some(Ids([])) == o;
      }
    }
  }
}
