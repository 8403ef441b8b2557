/** A run that gives up although it could have gone on: the provider finds the conversation
    too long, pruning makes it smaller, and it is not sent again. */
module GivingUp {
  import opened Wrappers
  import opened Text
  import opened Messages
  import opened FileTools
  import opened Estimators
  import opened Compaction
  import opened AgentRun

  const PROMPT := Plain(System, "")
  const TASK := Plain(User, "")
  const CALL := ToolCall("c", "read", "", Read("a", 0, 0))
  const ASK := Message(Assistant, Content.Null, "", [CALL], "", "", map[])
  const REPLY := Plain(Assistant, "")

  /** A conversation with one tool result. */
  function Story(result: string): seq<Message> {
    [TASK, ASK, ToolMessage("c", result), REPLY, TASK]
  }

  function History(result: string): seq<Message> {
    [PROMPT, TASK] + [ASK, ToolMessage("c", result)] + [REPLY, TASK]
  }

  const SETTINGS := New(2000, DEFAULT_THRESHOLD, DEFAULT_RETAIN)

  lemma BytesSnoc(msgs: seq<Message>, m: Message)
    ensures Bytes(msgs + [m]) == Bytes(msgs) + MessageBytes(m)
  {
    assert (msgs + [m])[..|msgs|] == msgs;
  }

  lemma {:induction false} BytesAppend(a: seq<Message>, b: seq<Message>)
    ensures Bytes(a + b) == Bytes(a) + Bytes(b)
    decreases |b|
  {
    if b == [] {
      assert a + b == a;
    } else {
      var init := b[..|b| - 1];
      assert (a + b)[..|a + b| - 1] == a + init;
      BytesAppend(a, init);
    }
  }

  lemma BytesOfTwo(a: Message, b: Message)
    ensures Bytes([a, b]) == MessageBytes(a) + MessageBytes(b)
  {
    hide Bytes, MessageBytes;
    OneMessage(a);
    BytesSnoc([a], b);
    assert [a] + [b] == [a, b];
  }

  lemma OneMessage(m: Message)
    ensures Bytes([m]) == MessageBytes(m)
  {
    BytesSnoc([], m);
    assert [] + [m] == [m];
  }

  /** A message without text and calls costs little. */
  lemma EmptyMessage(m: Message)
    requires Flatten(m.content) == "" && m.name == "" && m.toolCalls == [] && m.reasoning == "" && m.toolCallID == ""
    requires m.role == System || m.role == User || m.role == Assistant
    ensures 16 <= MessageBytes(m) <= 52
  {
    ByteLenBounds(RoleName(m.role));
  }

  lemma AskIsSmall()
    ensures 16 <= MessageBytes(ASK) <= 80
  {
    ByteLenBounds(RoleName(Assistant));
    CallIsSmall();
  }

  lemma CallIsSmall()
    ensures CallBytes([CALL]) <= 28
  {
    ByteLenBounds("c");
    ByteLenBounds("read");
    assert [CALL][..0] == [] && CallBytes([]) == 0;
  }

  lemma ResultIsItsText(text: string)
    ensures ByteLen(text) + 16 <= MessageBytes(ToolMessage("c", text)) <= ByteLen(text) + 36
  {
    ByteLenBounds(RoleName(Tool));
    ByteLenBounds("c");
    MessageBytesIs(ToolMessage("c", text));
    assert |RoleName(Tool)| == 4 && |"c"| == 1;
    assert Flatten(ToolMessage("c", text).content) == text && CallBytes([]) == 0;
    hide *;
  }

  lemma MessageBytesIs(m: Message)
    ensures MessageBytes(m) == 16 + ByteLen(RoleName(m.role)) + ByteLen(Flatten(m.content))
                               + ByteLen(m.name) + ByteLen(m.toolCallID) + CallBytes(m.toolCalls) + ByteLen(m.reasoning)
    ensures m.name == "" ==> ByteLen(m.name) == 0
    ensures m.reasoning == "" ==> ByteLen(m.reasoning) == 0
  {
    hide RoleName, CallBytes, Flatten;
  }

  lemma BytesOfSix(a: Message, b: Message, c: Message, d: Message, e: Message, f: Message)
    ensures Bytes([a, b] + [c, d] + [e, f])
            == MessageBytes(a) + MessageBytes(b) + (MessageBytes(c) + MessageBytes(d))
              + (MessageBytes(e) + MessageBytes(f))
  {
    hide Bytes, MessageBytes;
    BytesOfTwo(a, b);
    BytesOfTwo(c, d);
    BytesOfTwo(e, f);
    BytesAppend([a, b], [c, d]);
    BytesAppend([a, b] + [c, d], [e, f]);
  }

  lemma HistoryBytes(text: string)
    ensures ByteLen(text) + 96 <= Bytes(History(text)) <= ByteLen(text) + 324
  {
    hide Bytes, MessageBytes, ByteLen;
    EmptyMessage(PROMPT);
    EmptyMessage(TASK);
    EmptyMessage(REPLY);
    AskIsSmall();
    ResultIsItsText(text);
    BytesOfSix(PROMPT, TASK, ASK, ToolMessage("c", text), REPLY, TASK);
  }

  lemma TokensOf(bytes: int)
    ensures 0 <= bytes <= 100 ==> 0 <= TokensFor(FRESH, bytes) <= 40
    ensures bytes >= 3000 ==> TokensFor(FRESH, bytes) > 400
    ensures 0 <= bytes <= 3400 ==> TokensFor(FRESH, bytes) < 1600
  {
  }

  lemma TailStopsAt(costs: seq<int>)
    requires |costs| == 6 && 0 <= costs[5] <= 40 && 0 <= costs[4] <= 40 && costs[3] > 400
    ensures TailFrom(320, costs, 6, 0) == 4
  {
    assert TailFrom(320, costs, 6, 0) == TailFrom(320, costs, 5, costs[5]);
    assert TailFrom(320, costs, 5, costs[5]) == TailFrom(320, costs, 4, costs[5] + costs[4]);
  }

  lemma HistoryAt(text: string)
    ensures var h := History(text);
            && |h| == 6 && h[0] == PROMPT && h[1] == TASK && h[2] == ASK && h[3] == ToolMessage("c", text)
            && h[4] == REPLY && h[5] == TASK
  {
  }

  lemma LastCosts(big: string)
    requires ByteLen(big) == 3000
    ensures 0 <= OneEstimate(FRESH, TASK) <= 40 && 0 <= OneEstimate(FRESH, REPLY) <= 40
    ensures OneEstimate(FRESH, ToolMessage("c", big)) > 400
  {
    EmptyMessage(TASK);
    EmptyMessage(REPLY);
    ResultIsItsText(big);
    hide MessageBytes, Bytes, TokensFor, ByteLen;
    OneMessage(TASK);
    OneMessage(REPLY);
    OneMessage(ToolMessage("c", big));
    TokensOf(MessageBytes(TASK));
    TokensOf(MessageBytes(REPLY));
    TokensOf(MessageBytes(ToolMessage("c", big)));
  }

  /** The result is too large for the tail that is retained. */
  lemma ResultIsNotRetained(big: string)
    requires ByteLen(big) == 3000
    ensures RetainIndex(FRESH, SETTINGS, History(big)) == 4
  {
    assert RetainBudget(SETTINGS) == 320 && REPLY.role == Assistant;
    hide TokensFor, History, TailFrom, RetainBudget, ByteLen, OneEstimate, SETTINGS;
    var h := History(big);
    HistoryAt(big);
    LastCosts(big);
    TailStopsAt(Costs(FRESH, h));
    assert TailStart(FRESH, SETTINGS, h) == 4;
  }

  lemma LabelIsShort(big: string)
    ensures ByteLen(Label(ReadPaths(History(big)), ToolMessage("c", big))) <= 100
  {
    hide ReadPaths, History;
    if "c" in ReadPaths(History(big)) {
      ReadPathsSound(History(big), "c");
      OnlyOneCall(big, ReadPaths(History(big))["c"]);
      ByteLenBounds("a");
    } else {
      ByteLenBounds("output");
    }
  }

  lemma OthersAreKept()
    ensures !Prunable(PROMPT) && !Prunable(TASK) && !Prunable(ASK)
  {
  }

  lemma ResultIsPruned(big: string) returns (stub: string)
    requires ByteLen(big) == 3000
    ensures Pruned(History(big), 4) == History(stub) && ByteLen(stub) <= PRUNED_RESULT_BYTES
  {
    hide ByteLen, ReadPaths, StubText, History;
    var h, result := History(big), ToolMessage("c", big);
    stub := StubText(Label(ReadPaths(h), result), 3000);
    LabelIsShort(big);
    StubIsSmall(Label(ReadPaths(h), result), 3000);
    HistoryAt(big);
    HistoryAt(stub);
    OthersAreKept();
    assert Prunable(result) && Stubbed(ReadPaths(h), result) == ToolMessage("c", stub);
    hide Stubbed, Prunable, PROMPT, TASK, ASK, REPLY;
    assert Pruned(h, 4) == History(stub);
  }

  lemma OnlyOneCall(big: string, path: string)
    requires HasCall(History(big), "c", path)
    ensures path == "a"
  {
    var h := History(big);
    var i, k :| 0 <= i < |h| && 0 <= k < |h[i].toolCalls| && h[i].toolCalls[k].id == "c"
      && ArgPath(h[i].toolCalls[k]) == path;
    assert h[i].toolCalls[k] == CALL;
  }

  /** Pruning frees most of it, and brings the estimate under the limit. */
  lemma PruningFrees(big: string)
    requires ByteLen(big) == 3000
    ensures var (h, pruned) := (History(big), Pruned(History(big), 4));
            && Bytes(pruned) < Bytes(h) && Limit(SETTINGS) == 1600
            && Estimate(FRESH, h, 0) < 1600 && Estimate(FRESH, pruned, 0) < 1600
  {
    var stub := ResultIsPruned(big);
    HistoryBytes(stub);
    HistoryBytes(big);
    TokensOf(Bytes(History(big)));
    TokensOf(Bytes(History(stub)));
    hide Bytes, History, Pruned, ByteLen, TokensFor;
  }

  /** The first turn of a request with this conversation is sent as it is; the provider
      finds it too long; pruning would free more than half of it; and the run ends. */
  lemma PruningAloneGivesUp(cfg: Config, session: State, big: string, inp: Input)
    requires cfg.compactor == Some(SETTINGS) && cfg.toolBytes == 0 && ByteLen(big) == 3000
    requires !inp.clockOut && !inp.cancelled && inp.first == Overflow
    ensures var start := Start(session, FRESH, "", Story(big));
            var s1, end := Prepared(cfg, start, inp), Step(cfg, start, inp);
            && s1.history == start.history
            && Bytes(CompactNow(cfg, s1, inp.recovery, true).messages) < Bytes(s1.history)
            && |end.sent| == 1 && end.status != Running
  {
    var start := Start(session, FRESH, "", Story(big));
    StartsWithStory(cfg, session, big, inp);
    hide Start, Story, History, Step, Prepared, CompactNow, Halted, Bytes, Estimate, Pruned, RetainIndex, ByteLen,
         SETTINGS;
    PruningFrees(big);
    ResultIsNotRetained(big);
    GivesUp(cfg, start, inp);
  }

  /** The same, from any state before a turn. */
  lemma GivesUp(cfg: Config, s: RunState, inp: Input)
    requires Plausible(s.gauge) && cfg.compactor.Some? && Halted(cfg, s, inp).None? && inp.first == Overflow
             && s.sent == []
    requires var (st, h) := (cfg.compactor.value, s.history);
             var pruned := Pruned(h, RetainIndex(s.gauge, st, h));
             && Estimate(s.gauge, h, cfg.toolBytes) < Limit(st) && Bytes(pruned) < Bytes(h)
             && Estimate(s.gauge, pruned, cfg.toolBytes) < Limit(st)
    ensures var s1, end := Prepared(cfg, s, inp), Step(cfg, s, inp);
            && s1.history == s.history && Bytes(CompactNow(cfg, s1, inp.recovery, true).messages) < Bytes(s1.history)
            && |end.sent| == 1 && end.status != Running
  {
    hide Bytes, RetainIndex, Pruned, Limit, Estimate, Prepared, Asked, Acted, CompactNow, Halted, CanSummarize,
         HeadLength;
    PreparedAsItIs(cfg, s, inp);
    var s1 := Prepared(cfg, s, inp);
    ForcedToPrune(cfg, s1, inp.recovery);
    RetriesAfterOverflowIff(cfg, s1, inp);
    AskedEither(cfg, s1, inp);
  }

  /** Below the limit nothing is compacted ahead of a turn. */
  lemma PreparedAsItIs(cfg: Config, s: RunState, inp: Input)
    requires s.gauge.ratio > 0.0 && cfg.compactor.Some?
    requires Estimate(s.gauge, s.history, cfg.toolBytes) < Limit(cfg.compactor.value)
    ensures Prepared(cfg, s, inp).history == s.history && Prepared(cfg, s, inp).sent == s.sent
  {
    hide Estimate, Limit, Force;
  }

  lemma ForcedToPrune(cfg: Config, s: RunState, reply: SummaryReply)
    requires s.gauge.ratio > 0.0 && cfg.compactor.Some?
    requires var (st, h) := (cfg.compactor.value, s.history);
             Estimate(s.gauge, Pruned(h, RetainIndex(s.gauge, st, h)), cfg.toolBytes) < Limit(st)
    ensures CompactNow(cfg, s, reply, true).messages
            == Pruned(s.history, RetainIndex(s.gauge, cfg.compactor.value, s.history))
  {
    hide Estimate, Limit, RetainIndex, Pruned, PrunedPaths, AskedForSummary;
  }

  lemma StartsWithStory(cfg: Config, session: State, big: string, inp: Input)
    requires !inp.clockOut && !inp.cancelled
    ensures var start := Start(session, FRESH, "", Story(big));
            start.history == History(big) && start.sent == [] && start.iterations == 0 && start.tokens == 0
            && start.gauge == FRESH && Halted(cfg, start, inp).None?
  {
    var s := Story(big);
    assert s[1..][1..][1..][1..][1..] == [];
    NothingDropped(s);
    assert [PROMPT] + s == History(big);
  }

  lemma {:induction false} NothingDropped(ms: seq<Message>)
    requires forall m | m in ms :: !IsInstruction(m)
    ensures WithoutSystem(ms) == ms
  {
    if ms != [] {
      assert ms[0] in ms && forall m | m in ms[1..] :: m in ms;
      NothingDropped(ms[1..]);
      assert ms == [ms[0]] + ms[1..];
    }
  }

  lemma AskedEither(cfg: Config, s: RunState, inp: Input)
    requires s.gauge.ratio > 0.0 && inp.first == Overflow && cfg.compactor.Some?
    ensures var (t, reply) := Asked(cfg, s, inp);
            |t.sent| == |s.sent| + 2 || (|t.sent| == |s.sent| + 1 && reply == Overflow)
  {
    hide CompactNow;
  }
}
