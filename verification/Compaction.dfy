/** Keeping a conversation inside the context window (internal/contextmgr/compact.go). */
module Compaction {
  import opened Wrappers
  import opened Text
  import opened Messages
  import opened Estimators

  const DEFAULT_THRESHOLD := 0.8
  const DEFAULT_RETAIN := 0.16
  const PRUNED_RESULT_BYTES := 2048

  datatype Settings = Settings(window: int, threshold: real, retain: real)

  function New(window: int, threshold: real, retain: real): Settings {
    Settings(window,
             if threshold <= 0.0 || threshold >= 1.0 then DEFAULT_THRESHOLD else threshold,
             if retain <= 0.0 || retain >= 1.0 then DEFAULT_RETAIN else retain)
  }

  /** What asking for a summary produces. */
  datatype SummaryReply = NoSummarizer | SummaryFailed | Summary(text: string)

  datatype Method = Kept | Prune | Summarize

  datatype Compacted = Compacted(how: Method, messages: seq<Message>, prunedPaths: seq<string>, droppedAll: bool)

  function Limit(st: Settings): int {
    Truncate(st.window as real * st.threshold)
  }

  function RetainBudget(st: Settings): int {
    Truncate(st.window as real * st.retain)
  }

  function Estimate(g: Gauge, msgs: seq<Message>, toolBytes: nat): int
    requires g.ratio > 0.0
  {
    TokensFor(g, Bytes(msgs) + toolBytes)
  }

  function OneEstimate(g: Gauge, m: Message): int
    requires g.ratio > 0.0
  {
    TokensFor(g, Bytes([m]))
  }

  /** What each message costs on its own. */
  function Costs(g: Gauge, msgs: seq<Message>): seq<int>
    requires g.ratio > 0.0
  {
    seq(|msgs|, i requires 0 <= i < |msgs| => OneEstimate(g, msgs[i]))
  }

  /** The first index, counting back from i, whose tail still fits the budget. */
  function TailFrom(budget: int, costs: seq<int>, i: nat, total: int): nat
    requires i <= |costs|
  {
    if i == 0 then 0
    else
      var more := total + costs[i - 1];
      if more > budget then i else TailFrom(budget, costs, i - 1, more)
  }

  function SafeCut(msgs: seq<Message>, idx: nat): (r: nat)
    ensures r <= |msgs| && (idx <= |msgs| ==> idx <= r)
    ensures r == |msgs| || msgs[r].role != Tool
    ensures forall j | idx <= j < r :: msgs[j].role == Tool
    decreases |msgs| - idx
  {
    if idx >= |msgs| then |msgs| else if msgs[idx].role != Tool then idx else SafeCut(msgs, idx + 1)
  }

  /** Where the tail starts before it is moved to a safe boundary. */
  function TailStart(g: Gauge, st: Settings, msgs: seq<Message>): nat
    requires g.ratio > 0.0
  {
    var idx := TailFrom(RetainBudget(st), Costs(g, msgs), |msgs|, 0);
    var most := if idx > |msgs| - 2 then |msgs| - 2 else idx;
    if most < 2 then 2 else most
  }

  function RetainIndex(g: Gauge, st: Settings, msgs: seq<Message>): nat
    requires g.ratio > 0.0
  {
    SafeCut(msgs, TailStart(g, st, msgs))
  }

  function AddPaths(m: map<string, string>, calls: seq<ToolCall>): map<string, string> {
    if calls == [] then m
    else
      var before := AddPaths(m, calls[..|calls| - 1]);
      var tc := calls[|calls| - 1];
      if ArgPath(tc) != "" then before[tc.id := ArgPath(tc)] else before
  }

  /** Tool call id to the path it named; a later call with the same id wins. */
  function ReadPaths(msgs: seq<Message>): map<string, string> {
    if msgs == [] then map[] else AddPaths(ReadPaths(msgs[..|msgs| - 1]), msgs[|msgs| - 1].toolCalls)
  }

  predicate Prunable(m: Message) {
    m.role == Tool && ByteLen(Flatten(m.content)) > PRUNED_RESULT_BYTES
  }

  const STUB_MIDDLE := " omitted to save context \U{2014} "
  const STUB_END := " bytes. Re-read it if you still need it.]"

  function StubText(name: string, size: nat): string {
    ("[" + name) + (STUB_MIDDLE + (Itoa(size) + STUB_END))
  }

  function Label(paths: map<string, string>, m: Message): string {
    if m.toolCallID in paths then paths[m.toolCallID] else "output"
  }

  function Stubbed(paths: map<string, string>, m: Message): Message {
    m.(content := Content.Text(StubText(Label(paths, m), ByteLen(Flatten(m.content)))))
  }

  /** pruneToolResults: the messages, and the paths whose contents they lost. */
  function Pruned(msgs: seq<Message>, retainFrom: nat): seq<Message> {
    var paths := ReadPaths(msgs);
    seq(|msgs|, i requires 0 <= i < |msgs| =>
      if i < retainFrom && Prunable(msgs[i]) then Stubbed(paths, msgs[i]) else msgs[i])
  }

  function LostPath(paths: map<string, string>, m: Message): seq<string> {
    if Prunable(m) && m.toolCallID in paths then [paths[m.toolCallID]] else []
  }

  function LostPaths(paths: map<string, string>, msgs: seq<Message>): seq<string> {
    if msgs == [] then [] else LostPaths(paths, msgs[..|msgs| - 1]) + LostPath(paths, msgs[|msgs| - 1])
  }

  lemma LostPathsSnoc(paths: map<string, string>, msgs: seq<Message>, i: nat)
    requires i < |msgs|
    ensures LostPaths(paths, msgs[..i + 1]) == LostPaths(paths, msgs[..i]) + LostPath(paths, msgs[i])
  {
    assert msgs[..i + 1][..i] == msgs[..i];
  }

  function Front(msgs: seq<Message>, n: nat): seq<Message> {
    if n < |msgs| then msgs[..n] else msgs
  }

  function PrunedPaths(msgs: seq<Message>, retainFrom: nat): seq<string> {
    LostPaths(ReadPaths(msgs), Front(msgs, retainFrom))
  }

  const SUMMARY_HEADER := "[Earlier messages were removed to save context. Summary of the work so far:]\n\n"

  /** How many messages survive ahead of a summary: the system prompt and the user's task. */
  function HeadLength(msgs: seq<Message>): (n: nat)
    ensures n <= 2 && n <= |msgs|
  {
    var s := if msgs != [] && msgs[0].role == System then 1 else 0;
    if s < |msgs| && msgs[s].role == User then s + 1 else s
  }

  /** Whether summarize gets as far as asking for a summary. */
  predicate CanSummarize(msgs: seq<Message>, retainFrom: nat) {
    1 < retainFrom <= |msgs| && HeadLength(msgs) < retainFrom
  }

  function Summarized(msgs: seq<Message>, retainFrom: nat, reply: SummaryReply): Option<seq<Message>> {
    if reply.NoSummarizer? || !CanSummarize(msgs, retainFrom) || reply.SummaryFailed? || Trim(reply.text) == ""
    then None
    else Some(msgs[..HeadLength(msgs)] + [Plain(User, SUMMARY_HEADER + Trim(reply.text))] + msgs[retainFrom..])
  }

  function Force(g: Gauge, st: Settings, msgs: seq<Message>, toolBytes: nat, reply: SummaryReply): Compacted
    requires g.ratio > 0.0
  {
    var from := RetainIndex(g, st, msgs);
    var pruned, paths := Pruned(msgs, from), PrunedPaths(msgs, from);
    if Estimate(g, pruned, toolBytes) < Limit(st) then Compacted(Prune, pruned, paths, false)
    else
      match Summarized(pruned, from, reply)
      case None => Compacted(Prune, pruned, paths, false)
      case Some(out) => Compacted(Summarize, out, paths, true)
  }

  function Maybe(g: Gauge, st: Settings, msgs: seq<Message>, toolBytes: nat, reply: SummaryReply): Compacted
    requires g.ratio > 0.0
  {
    if st.window <= 0 || |msgs| < 4 || Estimate(g, msgs, toolBytes) < Limit(st) then Compacted(Kept, msgs, [], false)
    else Force(g, st, msgs, toolBytes, reply)
  }

  /** How many summaries a forced compaction asks for: one, if pruning is not enough and
      there is something to summarise and someone to do it. */
  function AskedForSummary(g: Gauge, st: Settings, msgs: seq<Message>, toolBytes: nat, reply: SummaryReply): nat
    requires g.ratio > 0.0
  {
    var from := RetainIndex(g, st, msgs);
    var pruned := Pruned(msgs, from);
    if Estimate(g, pruned, toolBytes) < Limit(st) || reply.NoSummarizer? || !CanSummarize(pruned, from) then 0 else 1
  }

  lemma PrunedShape(msgs: seq<Message>, from: nat)
    ensures SameShape(msgs, Pruned(msgs, from))
  {
  }

  lemma SummaryKeepsPairing(msgs: seq<Message>, from: nat, reply: SummaryReply)
    requires WellPaired(msgs) && from <= |msgs| && (from == |msgs| || msgs[from].role != Tool)
    requires Summarized(msgs, from, reply).Some?
    ensures WellPaired(Summarized(msgs, from, reply).value)
  {
    var n := HeadLength(msgs);
    var note := Plain(User, SUMMARY_HEADER + Trim(reply.text));
    PairedCut(msgs, from);
    HeadHasNoCalls(msgs);
    PairedCut(msgs, n);
    PairedSingle(note);
    PairedAppend(msgs[..n], [note]);
    PairedAppend(msgs[..n] + [note], msgs[from..]);
  }

  /** What survives ahead of a summary is complete in itself. */
  lemma HeadHasNoCalls(msgs: seq<Message>)
    requires WellPaired(msgs)
    ensures var n := HeadLength(msgs); n == |msgs| || msgs[n].role != Tool
  {
    PairedMeansByPosition(msgs);
    var n := HeadLength(msgs);
    assert forall j :: !IsResultOf(msgs, n, j);
  }

  /** No compaction, forced or not, separates a call from its results. */
  lemma CompactionKeepsPairing(g: Gauge, st: Settings, msgs: seq<Message>, toolBytes: nat, reply: SummaryReply)
    requires g.ratio > 0.0 && WellPaired(msgs)
    ensures WellPaired(Force(g, st, msgs, toolBytes, reply).messages)
    ensures WellPaired(Maybe(g, st, msgs, toolBytes, reply).messages)
  {
    hide Estimate, PrunedPaths, RetainIndex, Pruned, Summarized, WellPaired, Scan, SameShape;
    var from := RetainIndex(g, st, msgs);
    PrunedStaysPaired(g, st, msgs);
    if Summarized(Pruned(msgs, from), from, reply).Some? {
      SummaryKeepsPairing(Pruned(msgs, from), from, reply);
    }
  }

  lemma PrunedStaysPaired(g: Gauge, st: Settings, msgs: seq<Message>)
    requires g.ratio > 0.0 && WellPaired(msgs)
    ensures var from := RetainIndex(g, st, msgs);
            var pruned := Pruned(msgs, from);
            WellPaired(pruned) && |pruned| == |msgs| && from <= |msgs| && (from == |msgs| || pruned[from].role != Tool)
  {
    var from := RetainIndex(g, st, msgs);
    PrunedShape(msgs, from);
    ScanByShape(Some([]), msgs, Pruned(msgs, from));
  }

  /** The system prompt at the front and a user task right behind it. */
  ghost predicate Heads(msgs: seq<Message>, prompt: Message, task: Option<Message>) {
    && msgs != [] && msgs[0] == prompt && prompt.role == System
    && (task.Some? ==> |msgs| > 1 && msgs[1] == task.value && task.value.role == User)
  }

  lemma SummaryKeepsHeadAndTail(msgs: seq<Message>, from: nat, reply: SummaryReply, prompt: Message,
                                task: Option<Message>)
    requires Heads(msgs, prompt, task) && from <= |msgs| && Summarized(msgs, from, reply).Some?
    ensures var out := Summarized(msgs, from, reply).value;
            Heads(out, prompt, task) && msgs[from..] == Last(out, |msgs| - from)
  {
    var n := HeadLength(msgs);
    var front := msgs[..n] + [Plain(User, SUMMARY_HEADER + Trim(reply.text))];
    var out := front + msgs[from..];
    assert Last(out, |msgs| - from) == msgs[from..];
    assert out[0] == msgs[0] && (task.Some? ==> out[1] == msgs[1]);
  }

  /** The last n messages. */
  function Last(msgs: seq<Message>, n: nat): seq<Message> {
    if n <= |msgs| then msgs[|msgs| - n..] else msgs
  }

  lemma ForceKeepsHeadAndTail(g: Gauge, st: Settings, msgs: seq<Message>, toolBytes: nat, reply: SummaryReply,
                              prompt: Message, task: Option<Message>)
    requires g.ratio > 0.0 && Heads(msgs, prompt, task)
    ensures HeadAndTail(msgs, Force(g, st, msgs, toolBytes, reply).messages, RetainIndex(g, st, msgs), prompt, task)
  {
    var from := RetainIndex(g, st, msgs);
    PrunedKeepsHeadAndTail(msgs, from, prompt, task);
    var pruned := Pruned(msgs, from);
    assert pruned[from..] == msgs[from..] by { assert Last(pruned, |msgs| - from) == pruned[from..]; }
    hide RetainIndex, Pruned, PrunedPaths, Estimate, Limit;
    if Summarized(pruned, from, reply).Some? {
      SummaryKeepsHeadAndTail(pruned, from, reply, prompt, task);
    }
    hide Summarized, Heads, Last;
  }

  ghost predicate HeadAndTail(msgs: seq<Message>, out: seq<Message>, from: nat, prompt: Message, task: Option<Message>)
    requires from <= |msgs|
  {
    Heads(out, prompt, task) && msgs[from..] == Last(out, |msgs| - from)
  }

  lemma PrunedKeepsHeadAndTail(msgs: seq<Message>, from: nat, prompt: Message, task: Option<Message>)
    requires from <= |msgs| && Heads(msgs, prompt, task)
    ensures HeadAndTail(msgs, Pruned(msgs, from), from, prompt, task)
  {
    assert Pruned(msgs, from)[from..] == msgs[from..];
  }

  /** Every compaction keeps the prompt and the user's task word for word where they
      were, and the retained tail word for word at the end. */
  lemma CompactionKeepsHeadAndTail(g: Gauge, st: Settings, msgs: seq<Message>, toolBytes: nat, reply: SummaryReply,
                                   prompt: Message, task: Option<Message>)
    requires g.ratio > 0.0 && Heads(msgs, prompt, task)
    ensures HeadAndTail(msgs, Force(g, st, msgs, toolBytes, reply).messages, RetainIndex(g, st, msgs), prompt, task)
    ensures HeadAndTail(msgs, Maybe(g, st, msgs, toolBytes, reply).messages, RetainIndex(g, st, msgs), prompt, task)
  {
    ForceKeepsHeadAndTail(g, st, msgs, toolBytes, reply, prompt, task);
    hide Force, Estimate;
  }

  /** What survives ahead of a summary: a system prompt in front, and a user message in
      front or right behind that prompt. */
  lemma HeadIs(msgs: seq<Message>)
    ensures var n := HeadLength(msgs);
            && (n == 0 <==> msgs == [] || (msgs[0].role != System && msgs[0].role != User))
            && (n == 2 <==> |msgs| > 1 && msgs[0].role == System && msgs[1].role == User)
  {
  }

  /** A forced compaction that drops the middle of a conversation puts the summary, word for
      word but for blanks around it, in its place: in front of it the head, pruned like
      everything ahead of the tail, behind it the tail.  Otherwise it only prunes. */
  lemma SummaryTakesThePlace(g: Gauge, st: Settings, msgs: seq<Message>, toolBytes: nat, reply: SummaryReply)
    requires g.ratio > 0.0
    ensures var (from, n, c) := (RetainIndex(g, st, msgs), HeadLength(msgs), Force(g, st, msgs, toolBytes, reply));
            if c.droppedAll then
              && n <= from <= |msgs| && reply.Summary?
              && var note := SUMMARY_HEADER + Trim(reply.text);
                 c.messages == Pruned(msgs, from)[..n]
                               + [Message(User, Content.Text(note), "", [], "", "", map[])] + msgs[from..]
            else c.messages == Pruned(msgs, from)
  {
    hide RetainIndex, Estimate, Limit, PrunedPaths, Trim;
    var from := RetainIndex(g, st, msgs);
    PrunedKeepsHeadLength(msgs, from);
    hide HeadLength;
    var pruned := Pruned(msgs, from);
    if from <= |msgs| { assert pruned[from..] == msgs[from..]; }
    hide Pruned;
  }

  lemma PrunedKeepsHeadLength(msgs: seq<Message>, from: nat)
    ensures HeadLength(Pruned(msgs, from)) == HeadLength(msgs) && |Pruned(msgs, from)| == |msgs|
  {
  }

  /** And ahead of the tail the head is what it was, since no tool result is part of it. */
  lemma HeadIsKept(msgs: seq<Message>, from: nat)
    ensures Pruned(msgs, from)[..HeadLength(msgs)] == msgs[..HeadLength(msgs)]
  {
  }

  /** Every large result ahead of the tail, and nothing else, becomes a note that says what
      it was, how large, and how to see it again. */
  lemma PrunedIs(msgs: seq<Message>, from: nat, i: nat)
    requires i < |msgs|
    ensures var (m, out) := (msgs[i], Pruned(msgs, from)[i]);
            var size := ByteLen(Flatten(m.content));
            var paths := ReadPaths(msgs);
            if i < from && m.role == Tool && size > 2048 then
              && out == m.(content := out.content) && out.content.Text?
              && var name := if m.toolCallID in paths then paths[m.toolCallID] else "output";
                 out.content.text == "[" + name + " omitted to save context \U{2014} " + Itoa(size)
                                     + " bytes. Re-read it if you still need it.]"
            else out == m
  {
    hide ByteLen, ReadPaths, Itoa;
    var paths, m := ReadPaths(msgs), msgs[i];
    StubIs(Label(paths, m), ByteLen(Flatten(m.content)));
    hide StubText;
  }

  lemma StubIs(name: string, size: nat)
    ensures StubText(name, size)
            == "[" + name + " omitted to save context \U{2014} " + Itoa(size)
               + " bytes. Re-read it if you still need it.]"
  {
    hide Itoa;
    assert "[" + name + STUB_MIDDLE + Itoa(size) + STUB_END == ("[" + name) + (STUB_MIDDLE + (Itoa(size) + STUB_END));
  }

  /** Settings in range are kept and others become the defaults; the limit and the budget are
      those shares of the window, rounded down. */
  lemma SharesOfTheWindow(window: nat, threshold: real, retain: real)
    ensures var st := New(window, threshold, retain);
            && st.window == window
            && st.threshold == (if 0.0 < threshold < 1.0 then threshold else 0.8)
            && st.retain == (if 0.0 < retain < 1.0 then retain else 0.16)
            && Limit(st) as real <= window as real * st.threshold < Limit(st) as real + 1.0
            && RetainBudget(st) as real <= window as real * st.retain < RetainBudget(st) as real + 1.0
  {
    var st := New(window, threshold, retain);
    assert window as real * st.threshold >= 0.0 && window as real * st.retain >= 0.0;
  }

  function Sum(costs: seq<int>): int {
    if costs == [] then 0 else costs[0] + Sum(costs[1..])
  }

  lemma {:induction false} TailFits(budget: int, costs: seq<int>, i: nat, total: int)
    requires i <= |costs|
    requires total == Sum(costs[i..]) && (total <= budget || i == |costs|)
    ensures var from := TailFrom(budget, costs, i, total);
            from <= i && (Sum(costs[from..]) <= budget || from == |costs|)
    decreases i
  {
    if i > 0 {
      assert costs[i - 1..][1..] == costs[i..];
      var more := total + costs[i - 1];
      if more <= budget { TailFits(budget, costs, i - 1, more); }
    }
  }

  lemma TokensNonNegative(g: Gauge, m: Message)
    requires g.ratio > 0.0
    ensures OneEstimate(g, m) >= 0
  {
    assert Bytes([m]) as real / g.ratio >= 0.0;
  }

  lemma {:induction false} ShorterTailIsCheaper(costs: seq<int>, k: nat)
    requires k <= |costs| && forall i | 0 <= i < |costs| :: costs[i] >= 0
    ensures Sum(costs[k..]) <= Sum(costs)
  {
    if k == 0 {
      assert costs[0..] == costs;
    } else {
      ShorterTailIsCheaper(costs[1..], k - 1);
      assert costs[1..][k - 1..] == costs[k..];
    }
  }

  /** The retained tail fits its share of the window, or is at most two messages. */
  lemma RetainedTailFits(g: Gauge, st: Settings, msgs: seq<Message>)
    requires g.ratio > 0.0
    ensures var from := RetainIndex(g, st, msgs);
            Sum(Costs(g, msgs)[from..]) <= RetainBudget(st) || |msgs| - from <= 2
  {
    hide OneEstimate, TokensFor;
    var budget, costs := RetainBudget(st), Costs(g, msgs);
    var idx := TailFrom(budget, costs, |msgs|, 0);
    TailFits(budget, costs, |msgs|, 0);
    var from := RetainIndex(g, st, msgs);
    forall i | 0 <= i < |costs| ensures costs[i] >= 0 { TokensNonNegative(g, msgs[i]); }
    assert |costs| == |msgs| && (from < |msgs| ==> TailStart(g, st, msgs) <= from);
    assert |msgs| - from > 2 ==> idx <= from;
    assert costs[|costs|..] == [];
    hide *;
    if |msgs| - from > 2 {
      ShorterTailIsCheaper(costs[idx..], from - idx);
      assert costs[idx..][from - idx..] == costs[from..];
    }
  }

  lemma {:induction false} TailGoesFar(budget: int, costs: seq<int>, i: nat, total: int)
    requires i <= |costs| && total == Sum(costs[i..])
    ensures var from := TailFrom(budget, costs, i, total);
            from <= i && (from > 0 ==> Sum(costs[from - 1..]) > budget)
    decreases i
  {
    if i > 0 {
      assert costs[i - 1..][1..] == costs[i..];
      var more := total + costs[i - 1];
      if more <= budget { TailGoesFar(budget, costs, i - 1, more); }
    }
  }

  /** And it is the longest that could be kept: at any earlier place but the first two the
      tail would be too large, or would begin with a result. */
  lemma RetainedTailIsLongest(g: Gauge, st: Settings, msgs: seq<Message>, j: nat)
    requires g.ratio > 0.0 && 2 <= j < RetainIndex(g, st, msgs)
    ensures Sum(Costs(g, msgs)[j..]) > RetainBudget(st) || msgs[j].role == Tool
  {
    hide OneEstimate, TokensFor, RetainBudget;
    var budget, costs := RetainBudget(st), Costs(g, msgs);
    var idx := TailFrom(budget, costs, |msgs|, 0);
    assert costs[|costs|..] == [];
    TailGoesFar(budget, costs, |msgs|, 0);
    forall i | 0 <= i < |costs| ensures costs[i] >= 0 { TokensNonNegative(g, msgs[i]); }
    if j < TailStart(g, st, msgs) {
      assert j <= idx - 1 < |costs|;
      hide *;
      ShorterTailIsCheaper(costs[j..], idx - 1 - j);
      assert costs[j..][idx - 1 - j..] == costs[idx - 1..];
    }
  }

  /** Despite the intention to keep something, the tail is empty exactly when nothing
      but tool results follows the point where it was going to start. */
  lemma TailIsEmptyIff(g: Gauge, st: Settings, msgs: seq<Message>)
    requires g.ratio > 0.0
    ensures RetainIndex(g, st, msgs) == |msgs| <==>
            forall j | TailStart(g, st, msgs) <= j < |msgs| :: msgs[j].role == Tool
  {
  }

  /** It happens: two results at the end of a conversation in a one-token window. */
  lemma TailCanBeEmpty(prompt: Message, task: Message, calls: Message, a: Message, b: Message)
    requires prompt.role == System && task.role == User && calls.role == Assistant
    requires a.role == Tool && b.role == Tool
    ensures RetainIndex(FRESH, New(1, DEFAULT_THRESHOLD, DEFAULT_RETAIN), [prompt, task, calls, a, b]) == 5
  {
    var st := New(1, DEFAULT_THRESHOLD, DEFAULT_RETAIN);
    var msgs := [prompt, task, calls, a, b];
    CostsSomething(b);
    assert TailFrom(RetainBudget(st), Costs(FRESH, msgs), 5, 0) == 5;
    TailIsEmptyIff(FRESH, st, msgs);
  }

  lemma CostsSomething(m: Message)
    ensures OneEstimate(FRESH, m) > 0
  {
    var bytes := Bytes([m]);
    assert bytes == Bytes([]) + MessageBytes(m) && bytes >= 16;
    assert bytes as real / INITIAL_RATIO >= 4.0;
  }

  lemma {:induction false} PathsHaveCalls(m: map<string, string>, calls: seq<ToolCall>, id: string)
    requires id in AddPaths(m, calls)
    ensures (id in m && AddPaths(m, calls)[id] == m[id])
         || exists k | 0 <= k < |calls| ::
              calls[k].id == id && ArgPath(calls[k]) == AddPaths(m, calls)[id] && ArgPath(calls[k]) != ""
  {
    if calls != [] {
      var init := calls[..|calls| - 1];
      var tc := calls[|calls| - 1];
      if !(ArgPath(tc) != "" && tc.id == id) {
        PathsHaveCalls(m, init, id);
        assert forall k | 0 <= k < |init| :: init[k] == calls[k];
      }
    }
  }

  /** A call in the history with this id and this path argument. */
  ghost predicate HasCall(h: seq<Message>, id: string, path: string) {
    exists i, k | 0 <= i < |h| && 0 <= k < |h[i].toolCalls| ::
      h[i].toolCalls[k].id == id && ArgPath(h[i].toolCalls[k]) == path
  }

  lemma {:induction false} ReadPathsSound(msgs: seq<Message>, id: string)
    requires id in ReadPaths(msgs)
    ensures ReadPaths(msgs)[id] != "" && HasCall(msgs, id, ReadPaths(msgs)[id])
  {
    var init, last := msgs[..|msgs| - 1], msgs[|msgs| - 1];
    PathsHaveCalls(ReadPaths(init), last.toolCalls, id);
    if id in ReadPaths(init) && ReadPaths(msgs)[id] == ReadPaths(init)[id] {
      ReadPathsSound(init, id);
      var i, k :| 0 <= i < |init| && 0 <= k < |init[i].toolCalls|
                  && init[i].toolCalls[k].id == id && ArgPath(init[i].toolCalls[k]) == ReadPaths(msgs)[id];
      assert msgs[i] == init[i];
    }
  }

  lemma {:induction false} AddPathsKeeps(m: map<string, string>, calls: seq<ToolCall>, id: string)
    ensures id in m ==> id in AddPaths(m, calls)
    ensures (exists k | 0 <= k < |calls| :: calls[k].id == id && ArgPath(calls[k]) != "") ==> id in AddPaths(m, calls)
  {
    if calls != [] {
      var init := calls[..|calls| - 1];
      AddPathsKeeps(m, init, id);
      assert forall k | 0 <= k < |init| :: init[k] == calls[k];
    }
  }

  lemma {:induction false} ReadPathsComplete(msgs: seq<Message>, i: nat, k: nat)
    requires i < |msgs| && k < |msgs[i].toolCalls| && ArgPath(msgs[i].toolCalls[k]) != ""
    ensures msgs[i].toolCalls[k].id in ReadPaths(msgs)
  {
    var init, last := msgs[..|msgs| - 1], msgs[|msgs| - 1];
    AddPathsKeeps(ReadPaths(init), last.toolCalls, msgs[i].toolCalls[k].id);
    if i < |init| {
      assert init[i] == msgs[i];
      ReadPathsComplete(init, i, k);
    }
  }

  /** With unique ids, pruning looks up exactly the path the call named. */
  lemma ReadPathsExact(msgs: seq<Message>, id: string, path: string)
    requires UniqueIds(msgs) && HasCall(msgs, id, path) && path != ""
    ensures id in ReadPaths(msgs) && ReadPaths(msgs)[id] == path
  {
    var i, k :| 0 <= i < |msgs| && 0 <= k < |msgs[i].toolCalls|
                && msgs[i].toolCalls[k].id == id && ArgPath(msgs[i].toolCalls[k]) == path;
    ReadPathsComplete(msgs, i, k);
    ReadPathsSound(msgs, id);
  }

  lemma {:induction false} LostPathsComplete(paths: map<string, string>, msgs: seq<Message>, i: nat)
    requires i < |msgs| && Prunable(msgs[i]) && msgs[i].toolCallID in paths
    ensures paths[msgs[i].toolCallID] in LostPaths(paths, msgs)
  {
    var init := msgs[..|msgs| - 1];
    if i < |init| {
      assert init[i] == msgs[i];
      LostPathsComplete(paths, init, i);
    }
  }

  /** A message pruning changes is a result whose path, if it has one, is reported. */
  lemma PruningReportsPath(msgs: seq<Message>, from: nat, i: nat)
    requires i < |msgs| && Pruned(msgs, from)[i] != msgs[i]
    ensures i < from && Prunable(msgs[i]) && Pruned(msgs, from)[i] == Stubbed(ReadPaths(msgs), msgs[i])
    ensures msgs[i].toolCallID in ReadPaths(msgs) ==> ReadPaths(msgs)[msgs[i].toolCallID] in PrunedPaths(msgs, from)
  {
    hide ByteLen, StubText, Label;
    var front := Front(msgs, from);
    assert front[i] == msgs[i];
    if msgs[i].toolCallID in ReadPaths(msgs) {
      LostPathsComplete(ReadPaths(msgs), front, i);
    }
  }

  /** Sizes Go can represent. */
  const MAX_LENGTH := 10_000_000_000_000_000_000
  /** A path label that leaves room for the rest of a stub under the pruning size. */
  const LABEL_ROOM := 1700

  lemma TenToNineteen()
    ensures Pow10(19) == MAX_LENGTH
  {
    assert Pow10(4) == 10_000;
    assert Pow10(8) == 100_000_000;
    assert Pow10(12) == 1_000_000_000_000;
    assert Pow10(16) == 10_000_000_000_000_000;
  }

  lemma StubIsSmall(name: string, size: nat)
    requires ByteLen(name) <= LABEL_ROOM && size < MAX_LENGTH
    ensures ByteLen(StubText(name, size)) <= PRUNED_RESULT_BYTES
  {
    TenToNineteen();
    ItoaShort(size, 19);
    ByteLenBounds("["); ByteLenBounds(STUB_MIDDLE); ByteLenBounds(STUB_END);
    ByteLenAppend("[", name);
    ByteLenAppend(Itoa(size), STUB_END);
    ByteLenAppend(STUB_MIDDLE, Itoa(size) + STUB_END);
    ByteLenAppend("[" + name, STUB_MIDDLE + (Itoa(size) + STUB_END));
  }

  /** Labels short enough for stubs to stay below the pruning size. */
  ghost predicate BoundedLabels(msgs: seq<Message>) {
    forall i | 0 <= i < |msgs| && Prunable(msgs[i]) ::
      ByteLen(Label(ReadPaths(msgs), msgs[i])) <= LABEL_ROOM && ByteLen(Flatten(msgs[i].content)) < MAX_LENGTH
  }

  lemma ReadPathsIgnoreContents(a: seq<Message>, b: seq<Message>)
    requires SameShape(a, b)
    ensures ReadPaths(a) == ReadPaths(b)
  {
    if a != [] {
      ReadPathsIgnoreContents(a[..|a| - 1], b[..|b| - 1]);
    }
  }

  /** A stub is never pruned again, so pruning twice is pruning once. */
  lemma PruneIdempotent(msgs: seq<Message>, from: nat)
    requires BoundedLabels(msgs)
    ensures Pruned(Pruned(msgs, from), from) == Pruned(msgs, from)
    ensures PrunedPaths(Pruned(msgs, from), from) == []
  {
    var once := Pruned(msgs, from);
    forall i | 0 <= i < |msgs| && i < from
      ensures !Prunable(once[i])
    {
      if Prunable(msgs[i]) {
        StubIsSmall(Label(ReadPaths(msgs), msgs[i]), ByteLen(Flatten(msgs[i].content)));
      }
    }
    NothingLost(ReadPaths(once), Front(once, from));
  }

  lemma {:induction false} NothingLost(paths: map<string, string>, msgs: seq<Message>)
    requires forall i | 0 <= i < |msgs| :: !Prunable(msgs[i])
    ensures LostPaths(paths, msgs) == []
  {
    if msgs != [] {
      NothingLost(paths, msgs[..|msgs| - 1]);
    }
  }

  /** Pruning never makes the conversation larger. */
  lemma PruneNeverGrows(msgs: seq<Message>, from: nat)
    requires BoundedLabels(msgs)
    ensures Bytes(Pruned(msgs, from)) <= Bytes(msgs)
  {
    var out := Pruned(msgs, from);
    forall i | 0 <= i < |msgs|
      ensures MessageBytes(out[i]) <= MessageBytes(msgs[i])
    {
      if i < from && Prunable(msgs[i]) {
        StubIsSmall(Label(ReadPaths(msgs), msgs[i]), ByteLen(Flatten(msgs[i].content)));
      }
    }
    BytesPointwise(out, msgs);
  }

  lemma {:induction false} BytesPointwise(a: seq<Message>, b: seq<Message>)
    requires |a| == |b| && forall i | 0 <= i < |a| :: MessageBytes(a[i]) <= MessageBytes(b[i])
    ensures Bytes(a) <= Bytes(b)
  {
    if a != [] {
      BytesPointwise(a[..|a| - 1], b[..|b| - 1]);
    }
  }

  /** The compactor: its loops compute the functions above. */
  class Compactor {
    const settings: Settings
    const est: Estimator

    constructor (window: int, threshold: real, retain: real)
      ensures settings == New(window, threshold, retain) && fresh(est) && est.View() == FRESH
    {
      settings := New(window, threshold, retain);
      est := new Estimator();
    }

    method FindRetainIndex(msgs: seq<Message>) returns (idx: nat)
      requires est.ratio > 0.0
      ensures idx == RetainIndex(est.View(), settings, msgs)
    {
      hide OneEstimate, RetainBudget, SafeCut;
      var budget := RetainBudget(settings);
      ghost var costs := Costs(est.View(), msgs);
      var total := 0;
      var i := |msgs|;
      while i > 0
        invariant 0 <= i <= |msgs|
        invariant TailFrom(budget, costs, |msgs|, 0) == TailFrom(budget, costs, i, total)
      {
        var more := total + OneEstimate(est.View(), msgs[i - 1]);
        assert more == total + costs[i - 1];
        if more > budget { break; }
        total := more;
        i := i - 1;
      }
      if i > |msgs| - 2 { i := |msgs| - 2; }
      if i < 2 { i := 2; }
      idx := FindSafeCut(msgs, i);
    }

    method FindSafeCut(msgs: seq<Message>, idx: nat) returns (r: nat)
      ensures r == SafeCut(msgs, idx)
    {
      r := idx;
      while r < |msgs|
        invariant SafeCut(msgs, idx) == SafeCut(msgs, r)
      {
        if msgs[r].role != Tool { return; }
        r := r + 1;
      }
      return |msgs|;
    }

    method PruneToolResults(msgs: seq<Message>, retainFrom: nat) returns (out: seq<Message>, paths: seq<string>)
      ensures out == Pruned(msgs, retainFrom) && paths == PrunedPaths(msgs, retainFrom)
    {
      var readPaths := CollectPaths(msgs);
      out, paths := msgs, [];
      var i := 0;
      while i < retainFrom && i < |out|
        invariant 0 <= i <= |msgs| == |out| && i <= retainFrom
        invariant paths == LostPaths(readPaths, msgs[..i])
        invariant forall k | 0 <= k < |msgs| ::
                    out[k] == if k < i && Prunable(msgs[k]) then Stubbed(readPaths, msgs[k]) else msgs[k]
      {
        LostPathsSnoc(readPaths, msgs, i);
        hide *;
        var m, lost := PruneOne(readPaths, out[i]);
        paths := paths + lost;
        out := out[i := m];
        i := i + 1;
      }
      assert msgs[..i] == Front(msgs, retainFrom);
    }

    method PruneOne(readPaths: map<string, string>, m: Message) returns (r: Message, lost: seq<string>)
      ensures r == if Prunable(m) then Stubbed(readPaths, m) else m
      ensures lost == LostPath(readPaths, m)
    {
      r, lost := m, [];
      var size := ByteLen(Flatten(m.content));
      if m.role == Tool && size > PRUNED_RESULT_BYTES {
        var name := "output";
        if m.toolCallID in readPaths {
          name := readPaths[m.toolCallID];
          lost := [name];
        }
        r := m.(content := Content.Text(StubText(name, size)));
      }
    }

    method CollectPaths(msgs: seq<Message>) returns (paths: map<string, string>)
      ensures paths == ReadPaths(msgs)
    {
      paths := map[];
      for i := 0 to |msgs|
        invariant paths == ReadPaths(msgs[..i])
      {
        ghost var before := paths;
        var calls := msgs[i].toolCalls;
        for k := 0 to |calls|
          invariant paths == AddPaths(before, calls[..k])
        {
          assert calls[..k + 1][..k] == calls[..k];
          if ArgPath(calls[k]) != "" { paths := paths[calls[k].id := ArgPath(calls[k])]; }
        }
        assert calls[..|calls|] == calls;
        assert msgs[..i + 1][..i] == msgs[..i];
      }
      assert msgs[..|msgs|] == msgs;
    }

    /** asked counts the summaries requested: one if summarisation got that far. */
    method ForceCompact(msgs: seq<Message>, toolBytes: nat, reply: SummaryReply) returns (c: Compacted, asked: nat)
      requires est.ratio > 0.0
      ensures c == Force(est.View(), settings, msgs, toolBytes, reply)
      ensures asked == AskedForSummary(est.View(), settings, msgs, toolBytes, reply)
      ensures asked <= 1 && (c.droppedAll ==> asked == 1)
    {
      var from := FindRetainIndex(msgs);
      var pruned, paths := PruneToolResults(msgs, from);
      asked := 0;
      c := Compacted(Prune, pruned, paths, false);
      if Estimate(est.View(), pruned, toolBytes) < Limit(settings) { return; }
      if reply.NoSummarizer? || !CanSummarize(pruned, from) { return; }
      asked := 1;
      var out := Summarized(pruned, from, reply);
      if out.Some? { c := Compacted(Summarize, out.value, paths, true); }
    }

    method MaybeCompact(msgs: seq<Message>, toolBytes: nat, reply: SummaryReply) returns (c: Compacted, asked: nat)
      requires est.ratio > 0.0
      ensures c == Maybe(est.View(), settings, msgs, toolBytes, reply)
      ensures asked == if c.how == Kept then 0 else AskedForSummary(est.View(), settings, msgs, toolBytes, reply)
      ensures asked <= 1 && (c.droppedAll ==> asked == 1)
    {
      if settings.window <= 0 || |msgs| < 4 || Estimate(est.View(), msgs, toolBytes) < Limit(settings) {
        return Compacted(Kept, msgs, [], false), 0;
      }
      c, asked := ForceCompact(msgs, toolBytes, reply);
    }
  }
}
