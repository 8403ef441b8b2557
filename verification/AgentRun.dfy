/** One agent run (internal/agent/loop.go, RunWithEvents) as a state machine.  A step is
    one pass of the loop: compact, ask, recover from an overflow, run the tool calls.
    Everything the provider, the clock and the disk decide is the step's input, so a
    statement about every list of inputs is a statement about every run. */
module AgentRun {
  import opened Wrappers
  import opened Text
  import opened Messages
  import opened Ledgers
  import opened FileTools
  import opened Estimators
  import opened Compaction

  datatype Config = Config(
    host: Host,
    compactor: Option<Settings>,
    toolBytes: nat,
    maxIterations: int,
    maxTokens: int)

  datatype Usage = Usage(prompt: int, total: int)

  /** What one upstream completion comes back with. */
  datatype UpstreamReply =
    | Answer(assistant: Message, usage: Option<Usage>)
    | NoChoices(usage: Option<Usage>)
    | Overflow
    | Broken

  datatype Input = Input(
    clockOut: bool,
    cancelled: bool,
    before: SummaryReply,
    first: UpstreamReply,
    recovery: SummaryReply,
    second: UpstreamReply,
    worlds: nat -> World,
    cancelledLater: bool)

  datatype Stop = Complete | MaxIterations | WallClock | MaxTokens | Cancelled

  datatype Status = Running | Finished(stop: Stop) | Errored

  /** The tool result in which the model was last shown (or told it had written) the
      bytes of a path. */
  datatype Witness = Witness(callId: string, bytes: string, text: string)

  type Witnesses = map<string, Witness>

  /** A request as it went upstream, with what the ledger vouched for at that moment. */
  datatype Sent = Sent(messages: seq<Message>, entries: Entries, seen: Witnesses)

  /** An authorised change to an existing file: the request that led to it, the bytes it
      destroys, and the replies earlier calls of the same turn had already produced. */
  datatype Overwrite = Overwrite(request: int, path: string, destroyed: string, earlier: seq<Reply>)

  /** produced, seen, sent, overwrites and completions record the run; no step reads them. */
  datatype RunState = RunState(
    session: State,
    history: seq<Message>,
    produced: seq<Message>,
    gauge: Gauge,
    turnCounter: nat,
    iterations: nat,
    tokens: int,
    status: Status,
    seen: Witnesses,
    sent: seq<Sent>,
    overwrites: seq<Overwrite>,
    completions: nat)

  /** The text of a tool message: a failure says so. */
  function ResultText(host: Host, reply: Reply): string {
    (if reply.Failed? || reply.Missing? || reply.Denied? then "Error: " else "") + host.render(reply)
  }

  function ResultMessages(host: Host, calls: seq<ToolCall>, replies: seq<Reply>): seq<Message>
    requires |calls| == |replies|
  {
    seq(|calls|, k requires 0 <= k < |calls| => ToolMessage(calls[k].id, ResultText(host, replies[k])))
  }

  function See(host: Host, seen: Witnesses, call: ToolCall, reply: Reply): Witnesses {
    match Observed(reply)
    case Some((p, b)) => seen[p := Witness(call.id, b, ResultText(host, reply))]
    case None => seen
  }

  function SeeAll(host: Host, seen: Witnesses, calls: seq<ToolCall>, replies: seq<Reply>): Witnesses
    requires |calls| == |replies|
    decreases calls
  {
    if calls == [] then seen
    else SeeAll(host, See(host, seen, calls[0], replies[0]), calls[1..], replies[1..])
  }

  function Jobs(calls: seq<ToolCall>, worlds: nat -> World): (jobs: seq<Job>)
    ensures |jobs| == |calls|
  {
    seq(|calls|, k requires 0 <= k < |calls| => Job(calls[k], worlds(k)))
  }

  /** The overwrites among the jobs, run in order from a state. */
  function OverwritesOf(host: Host, s: State, jobs: seq<Job>, request: int, earlier: seq<Reply>): seq<Overwrite>
    decreases jobs
  {
    if jobs == [] then []
    else
      var o := Execute(host, s, jobs[0].call, jobs[0].world);
      var plan := Plan(host, s, jobs[0].call);
      (if jobs[0].world.denied.None? && plan.Some? && plan.value.was.Some?
       then [Overwrite(request, plan.value.path, plan.value.was.value, earlier)] else [])
      + OverwritesOf(host, o.after, jobs[1..], request, earlier + [o.reply])
  }

  /** Loop.compact: the ledger and the messages afterwards, and the number of summaries
      asked for. */
  datatype CompactStep = CompactStep(entries: Entries, messages: seq<Message>, asked: nat)

  function Settle(es: Entries, c: Compacted, turn: int): Entries {
    match c.how
    case Kept => es
    case _ => if c.droppedAll then StaledBefore(es, turn) else Staled(es, c.prunedPaths)
  }

  /** What the compactor, if there is one, makes of the history. */
  function Chosen(cfg: Config, s: RunState, reply: SummaryReply, force: bool): Compacted
    requires s.gauge.ratio > 0.0
  {
    match cfg.compactor
    case None => Compacted(Kept, s.history, [], false)
    case Some(st) =>
      if force then Force(s.gauge, st, s.history, cfg.toolBytes, reply)
      else Maybe(s.gauge, st, s.history, cfg.toolBytes, reply)
  }

  function CompactNow(cfg: Config, s: RunState, reply: SummaryReply, force: bool): CompactStep
    requires s.gauge.ratio > 0.0
  {
    var c := Chosen(cfg, s, reply, force);
    var asked := if c.how == Kept then 0
                 else AskedForSummary(s.gauge, cfg.compactor.value, s.history, cfg.toolBytes, reply);
    CompactStep(Settle(s.session.entries, c, s.turnCounter), c.messages, asked)
  }

  function Halted(cfg: Config, s: RunState, inp: Input): Option<RunState> {
    if cfg.maxIterations > 0 && s.iterations >= cfg.maxIterations then Some(s.(status := Finished(MaxIterations)))
    else if inp.clockOut then Some(s.(status := Finished(WallClock)))
    else if cfg.maxTokens > 0 && s.tokens >= cfg.maxTokens then Some(s.(status := Finished(MaxTokens)))
    else if inp.cancelled then Some(s.(iterations := s.iterations + 1, status := Finished(Cancelled)))
    else None
  }

  function NextTurn(s: RunState): RunState {
    var turn := s.turnCounter + 1;
    s.(iterations := s.iterations + 1, turnCounter := turn, session := s.session.(turn := turn))
  }

  /** The turn begins: counters move and the conversation is compacted if it must be. */
  function Prepared(cfg: Config, s: RunState, inp: Input): (r: RunState)
    requires s.gauge.ratio > 0.0
    ensures r.gauge == s.gauge && r.iterations == s.iterations + 1
    ensures r.turnCounter == s.turnCounter + 1 && r.session.turn == r.turnCounter
  {
    var s1 := NextTurn(s);
    var c := CompactNow(cfg, s1, inp.before, false);
    s1.(session := s1.session.(entries := c.entries), history := c.messages, completions := s1.completions + c.asked)
  }

  /** The message lists that went upstream. */
  function Requests(sent: seq<Sent>): seq<seq<Message>> {
    if sent == [] then [] else Requests(sent[..|sent| - 1]) + [sent[|sent| - 1].messages]
  }

  lemma RequestsSnoc(sent: seq<Sent>, r: Sent)
    ensures Requests(sent + [r]) == Requests(sent) + [r.messages]
  {
    assert (sent + [r])[..|sent|] == sent;
  }

  function SendNow(s: RunState): RunState {
    s.(sent := s.sent + [Sent(s.history, s.session.entries, s.seen)], completions := s.completions + 1)
  }

  /** completeWithOverflowRecovery. */
  function Asked(cfg: Config, s: RunState, inp: Input): (r: (RunState, UpstreamReply))
    requires s.gauge.ratio > 0.0
    ensures r.0.gauge == s.gauge && r.0.iterations == s.iterations
    ensures r.0.turnCounter == s.turnCounter && r.0.session.turn == s.session.turn
    ensures r.0.seen == s.seen && r.0.overwrites == s.overwrites && s.sent <= r.0.sent
    ensures r.1.Answer? ==>
              r.0.sent != [] && r.0.sent[|r.0.sent| - 1] == Sent(r.0.history, r.0.session.entries, r.0.seen)
  {
    var s1 := SendNow(s);
    if inp.first != Overflow || cfg.compactor.None? then (s1, inp.first)
    else
      var c := CompactNow(cfg, s1, inp.recovery, true);
      var s2 := s1.(session := s1.session.(entries := c.entries), completions := s1.completions + c.asked);
      if |c.messages| == |s.history| then (s2, Overflow)
      else (SendNow(s2.(history := c.messages)), inp.second)
  }

  function Learned(cfg: Config, s: RunState, usage: Option<Usage>): Gauge {
    if cfg.compactor.None? || usage.None? || usage.value.prompt == 0 then s.gauge
    else Learn(s.gauge, Report(Bytes(s.history) + cfg.toolBytes, usage.value.prompt))
  }

  /** What a completion cost, and what it teaches the estimator. */
  function Charged(cfg: Config, s: RunState, usage: Option<Usage>): RunState {
    s.(gauge := Learned(cfg, s, usage), tokens := s.tokens + (if usage.Some? then usage.value.total else 0))
  }

  /** The answer joins the history and its tool calls run. */
  function Acted(cfg: Config, s: RunState, answer: Message, usage: Option<Usage>, inp: Input): RunState {
    var assistant := answer.(role := Assistant);
    var s1 := Charged(cfg, s, usage);
    if assistant.toolCalls == [] then
      s1.(history := s1.history + [assistant], produced := s1.produced + [assistant], status := Finished(Complete))
    else
      var jobs := Jobs(assistant.toolCalls, inp.worlds);
      var t := RunInOrder(cfg.host, s1.session, jobs);
      var more := [assistant] + ResultMessages(cfg.host, assistant.toolCalls, t.replies);
      s1.(session := t.after,
          history := s1.history + more,
          produced := s1.produced + more,
          seen := SeeAll(cfg.host, s1.seen, assistant.toolCalls, t.replies),
          overwrites := s1.overwrites + OverwritesOf(cfg.host, s1.session, jobs, |s1.sent| - 1, []),
          status := if inp.cancelledLater then Finished(Cancelled) else Running)
  }

  lemma ActedSendsNothing(cfg: Config, s: RunState, answer: Message, usage: Option<Usage>, inp: Input)
    ensures Acted(cfg, s, answer, usage, inp).sent == s.sent
  {
  }

  /** One pass of the loop. */
  function Step(cfg: Config, s: RunState, inp: Input): RunState
    requires s.gauge.ratio > 0.0
  {
    match Halted(cfg, s, inp)
    case Some(end) => end
    case None =>
      var (s1, reply) := Asked(cfg, Prepared(cfg, s, inp), inp);
      match reply
      case Answer(a, usage) => Acted(cfg, s1, a, usage, inp)
      case NoChoices(usage) => Charged(cfg, s1, usage).(status := Errored)
      case _ => s1.(status := if inp.cancelledLater then Finished(Cancelled) else Errored)
  }

  lemma LearnedStaysPlausible(cfg: Config, s: RunState, usage: Option<Usage>)
    requires Plausible(s.gauge)
    ensures Plausible(Learned(cfg, s, usage))
  {
  }

  lemma StepKeepsGauge(cfg: Config, s: RunState, inp: Input)
    requires Plausible(s.gauge)
    ensures Plausible(Step(cfg, s, inp).gauge)
  {
    if Halted(cfg, s, inp).None? {
      var (s1, reply) := Asked(cfg, Prepared(cfg, s, inp), inp);
      if reply.Answer? || reply.NoChoices? { LearnedStaysPlausible(cfg, s1, reply.usage); }
    }
  }

  function Run(cfg: Config, s: RunState, inputs: seq<Input>): (r: RunState)
    requires Plausible(s.gauge)
    ensures Plausible(r.gauge)
    decreases inputs
  {
    if inputs == [] || s.status != Running then s
    else
      StepKeepsGauge(cfg, s, inputs[0]);
      Run(cfg, Step(cfg, s, inputs[0]), inputs[1..])
  }

  /** The start of a request: the session as it is, our prompt, the caller's
      conversation without its instructions. */
  function Start(session: State, gauge: Gauge, prompt: string, request: seq<Message>): RunState {
    RunState(session, [Plain(System, prompt)] + WithoutSystem(request), [], gauge, 0, 0, 0, Running, map[], [], [], 0)
  }

  /** The start of a request that goes on with the record of what earlier requests were
      shown. */
  function Resumed(session: State, seen: Witnesses, gauge: Gauge, prompt: string, request: seq<Message>): RunState {
    Start(session, gauge, prompt, request).(seen := seen)
  }

  // ---- Calls and results stay paired ----

  ghost predicate Paired(s: RunState) {
    WellPaired(s.history) && forall r | 0 <= r < |s.sent| :: WellPaired(s.sent[r].messages)
  }

  lemma CompactNowKeepsPairing(cfg: Config, s: RunState, reply: SummaryReply, force: bool)
    requires s.gauge.ratio > 0.0 && WellPaired(s.history)
    ensures WellPaired(CompactNow(cfg, s, reply, force).messages)
  {
    if cfg.compactor.Some? {
      CompactionKeepsPairing(s.gauge, cfg.compactor.value, s.history, cfg.toolBytes, reply);
    }
  }

  lemma AskedKeepsPairing(cfg: Config, s: RunState, inp: Input)
    requires s.gauge.ratio > 0.0 && Paired(s)
    ensures Paired(Asked(cfg, s, inp).0)
  {
    hide CompactNow, WellPaired;
    CompactNowKeepsPairing(cfg, SendNow(s), inp.recovery, true);
  }

  lemma ActedKeepsPairing(cfg: Config, s: RunState, answer: Message, usage: Option<Usage>, inp: Input)
    requires Paired(s)
    ensures Paired(Acted(cfg, s, answer, usage, inp))
  {
    var assistant := answer.(role := Assistant);
    var results := if assistant.toolCalls == [] then []
                   else ResultMessages(cfg.host, assistant.toolCalls,
                          RunInOrder(cfg.host, s.session, Jobs(assistant.toolCalls, inp.worlds)).replies);
    PairedBlock(assistant, results);
    PairedAppend(s.history, [assistant] + results);
    assert [assistant] + [] == [assistant];
  }

  lemma StepKeepsPairing(cfg: Config, s: RunState, inp: Input)
    requires Plausible(s.gauge) && Paired(s)
    ensures Paired(Step(cfg, s, inp))
  {
    if Halted(cfg, s, inp).None? {
      CompactNowKeepsPairing(cfg, NextTurn(s), inp.before, false);
      var s2 := Prepared(cfg, s, inp);
      AskedKeepsPairing(cfg, s2, inp);
      var (s3, reply) := Asked(cfg, s2, inp);
      if reply.Answer? { ActedKeepsPairing(cfg, s3, reply.assistant, reply.usage, inp); }
    }
  }

  lemma {:induction false} RunKeepsPairing(cfg: Config, s: RunState, inputs: seq<Input>)
    requires Plausible(s.gauge) && Paired(s)
    ensures Paired(Run(cfg, s, inputs))
    decreases inputs
  {
    if inputs != [] && s.status == Running {
      StepKeepsGauge(cfg, s, inputs[0]);
      StepKeepsPairing(cfg, s, inputs[0]);
      RunKeepsPairing(cfg, Step(cfg, s, inputs[0]), inputs[1..]);
    }
  }

  lemma RunStaysPaired(cfg: Config, session: State, gauge: Gauge, prompt: string, request: seq<Message>,
                       inputs: seq<Input>)
    requires Plausible(gauge) && WellPaired(request)
    ensures Paired(Run(cfg, Start(session, gauge, prompt, request), inputs))
  {
    WithoutSystemScan(Some([]), request);
    PairedSingle(Plain(System, prompt));
    PairedAppend([Plain(System, prompt)], WithoutSystem(request));
    RunKeepsPairing(cfg, Start(session, gauge, prompt, request), inputs);
  }

  /** Whatever the provider answers, the tools do and compaction drops: if the client's
      messages are paired, so is every request of the run. */
  lemma EveryRequestIsPaired(cfg: Config, session: State, gauge: Gauge, prompt: string, request: seq<Message>,
                             inputs: seq<Input>)
    requires Plausible(gauge) && WellPaired(request)
    ensures var s := Run(cfg, Start(session, gauge, prompt, request), inputs);
            forall r | 0 <= r < |s.sent| :: PairedByPosition(s.sent[r].messages)
  {
    RunStaysPaired(cfg, session, gauge, prompt, request, inputs);
    var s := Run(cfg, Start(session, gauge, prompt, request), inputs);
    forall r | 0 <= r < |s.sent| ensures PairedByPosition(s.sent[r].messages) {
      PairedMeansByPosition(s.sent[r].messages);
    }
  }

  // ---- The prompt and the user's task stay in place ----

  ghost predicate Headed(s: RunState, prompt: Message, task: Option<Message>) {
    Heads(s.history, prompt, task) && forall r | 0 <= r < |s.sent| :: Heads(s.sent[r].messages, prompt, task)
  }

  lemma CompactNowKeepsHead(cfg: Config, s: RunState, reply: SummaryReply, force: bool, prompt: Message,
                            task: Option<Message>)
    requires s.gauge.ratio > 0.0 && Heads(s.history, prompt, task)
    ensures Heads(CompactNow(cfg, s, reply, force).messages, prompt, task)
  {
    if cfg.compactor.Some? {
      CompactionKeepsHeadAndTail(s.gauge, cfg.compactor.value, s.history, cfg.toolBytes, reply, prompt, task);
    }
  }

  lemma AskedKeepsHead(cfg: Config, s: RunState, inp: Input, prompt: Message, task: Option<Message>)
    requires s.gauge.ratio > 0.0 && Headed(s, prompt, task)
    ensures Headed(Asked(cfg, s, inp).0, prompt, task)
  {
    hide CompactNow, Heads;
    CompactNowKeepsHead(cfg, SendNow(s), inp.recovery, true, prompt, task);
  }

  lemma ActedKeepsHead(cfg: Config, s: RunState, answer: Message, usage: Option<Usage>, inp: Input, prompt: Message,
                       task: Option<Message>)
    requires Headed(s, prompt, task)
    ensures Headed(Acted(cfg, s, answer, usage, inp), prompt, task)
  {
  }

  lemma StepKeepsHead(cfg: Config, s: RunState, inp: Input, prompt: Message, task: Option<Message>)
    requires Plausible(s.gauge) && Headed(s, prompt, task)
    ensures Headed(Step(cfg, s, inp), prompt, task)
  {
    if Halted(cfg, s, inp).None? {
      CompactNowKeepsHead(cfg, NextTurn(s), inp.before, false, prompt, task);
      var s2 := Prepared(cfg, s, inp);
      AskedKeepsHead(cfg, s2, inp, prompt, task);
      var (s3, reply) := Asked(cfg, s2, inp);
      if reply.Answer? { ActedKeepsHead(cfg, s3, reply.assistant, reply.usage, inp, prompt, task); }
    }
  }

  /** The system prompt and a leading user task are verbatim at the front of every
      request of the run. */
  lemma {:induction false} HeadSurvivesRun(cfg: Config, s: RunState, inputs: seq<Input>, prompt: Message,
                                           task: Option<Message>)
    requires Plausible(s.gauge) && Headed(s, prompt, task)
    ensures Headed(Run(cfg, s, inputs), prompt, task)
    decreases inputs
  {
    if inputs != [] && s.status == Running {
      StepKeepsGauge(cfg, s, inputs[0]);
      StepKeepsHead(cfg, s, inputs[0], prompt, task);
      HeadSurvivesRun(cfg, Step(cfg, s, inputs[0]), inputs[1..], prompt, task);
    }
  }

  /** In particular, a request that opens with the user's task keeps it in second place
      all run long. */
  lemma TaskSurvivesRun(cfg: Config, session: State, gauge: Gauge, prompt: string, request: seq<Message>,
                        inputs: seq<Input>)
    requires Plausible(gauge) && WithoutSystem(request) != [] && WithoutSystem(request)[0].role == User
    ensures var s := Run(cfg, Start(session, gauge, prompt, request), inputs);
            forall r | 0 <= r < |s.sent| ::
              |s.sent[r].messages| >= 2 && s.sent[r].messages[..2] == [Plain(System, prompt), WithoutSystem(request)[0]]
  {
    var task := WithoutSystem(request)[0];
    HeadSurvivesRun(cfg, Start(session, gauge, prompt, request), inputs, Plain(System, prompt), Some(task));
  }

  // ---- What a run costs ----

  ghost predicate Affordable(cfg: Config, s: RunState) {
    && (cfg.maxIterations > 0 ==> s.iterations <= cfg.maxIterations)
    && s.completions <= 4 * s.iterations && |s.sent| <= 2 * s.iterations
  }

  lemma AskedCosts(cfg: Config, s: RunState, inp: Input)
    requires s.gauge.ratio > 0.0
    ensures var t := Asked(cfg, s, inp).0;
            t.iterations == s.iterations && t.completions <= s.completions + 3 && |t.sent| <= |s.sent| + 2
  {
  }

  lemma PreparedCosts(cfg: Config, s: RunState, inp: Input)
    requires s.gauge.ratio > 0.0
    ensures var t := Prepared(cfg, s, inp);
            t.iterations == s.iterations + 1 && t.completions <= s.completions + 1 && t.sent == s.sent
  {
  }

  lemma ActedCosts(cfg: Config, s: RunState, answer: Message, usage: Option<Usage>, inp: Input)
    ensures var t := Acted(cfg, s, answer, usage, inp);
            t.iterations == s.iterations && t.completions == s.completions && t.sent == s.sent
  {
  }

  lemma StepIsAffordable(cfg: Config, s: RunState, inp: Input)
    requires Plausible(s.gauge) && Affordable(cfg, s)
    ensures Affordable(cfg, Step(cfg, s, inp))
  {
    hide Asked, Prepared, Acted;
    if Halted(cfg, s, inp).None? {
      PreparedCosts(cfg, s, inp);
      AskedCosts(cfg, Prepared(cfg, s, inp), inp);
      var (t, reply) := Asked(cfg, Prepared(cfg, s, inp), inp);
      if reply.Answer? { ActedCosts(cfg, t, reply.assistant, reply.usage, inp); }
    }
  }

  /** A run starts at most MaxIterations turns and asks upstream at most four times in
      each: a summary, the turn, a recovery summary and the retry. */
  lemma {:induction false} RunIsAffordable(cfg: Config, s: RunState, inputs: seq<Input>)
    requires Plausible(s.gauge) && Affordable(cfg, s)
    ensures Affordable(cfg, Run(cfg, s, inputs))
    decreases inputs
  {
    if inputs != [] && s.status == Running {
      StepKeepsGauge(cfg, s, inputs[0]);
      StepIsAffordable(cfg, s, inputs[0]);
      RunIsAffordable(cfg, Step(cfg, s, inputs[0]), inputs[1..]);
    }
  }

  lemma ForceEitherSummarizesOrPrunes(g: Gauge, st: Settings, msgs: seq<Message>, toolBytes: nat, reply: SummaryReply)
    requires g.ratio > 0.0
    ensures var c := Force(g, st, msgs, toolBytes, reply);
            var from := RetainIndex(g, st, msgs);
            && (!c.droppedAll ==> |c.messages| == |msgs|)
            && (c.droppedAll ==> |c.messages| == |msgs| - (from - HeadLength(Pruned(msgs, from))) + 1)
  {
  }

  /** After an overflow the turn is retried exactly when pruning is not enough by the
      estimate, a summary can be made and comes back with some text, and it stands for at
      least two messages.  Pruning alone keeps the number of messages, and the run gives
      up. */
  lemma RetriesAfterOverflowIff(cfg: Config, s: RunState, inp: Input)
    requires s.gauge.ratio > 0.0 && inp.first == Overflow && cfg.compactor.Some?
    ensures var (st, h) := (cfg.compactor.value, s.history);
            var from := RetainIndex(s.gauge, st, h);
            |Asked(cfg, s, inp).0.sent| == |s.sent| + 2
            <==> && Estimate(s.gauge, Pruned(h, from), cfg.toolBytes) >= Limit(st)
                 && CanSummarize(h, from) && inp.recovery.Summary? && !AllSpace(inp.recovery.text)
                 && from - HeadLength(h) >= 2
  {
    var (st, h) := (cfg.compactor.value, s.history);
    var from := RetainIndex(s.gauge, st, h);
    AsksTwiceIff(cfg, s, inp);
    PrunedHead(h, from);
    if inp.recovery.Summary? { TrimEmpty(inp.recovery.text); }
    ForceEitherSummarizesOrPrunes(s.gauge, st, h, cfg.toolBytes, inp.recovery);
    ForceSummarizesIff(s.gauge, st, h, cfg.toolBytes, inp.recovery);
    hide *;
  }

  lemma AsksTwiceIff(cfg: Config, s: RunState, inp: Input)
    requires s.gauge.ratio > 0.0 && inp.first == Overflow && cfg.compactor.Some?
    ensures |Asked(cfg, s, inp).0.sent| == |s.sent| + 2
            <==> |Force(s.gauge, cfg.compactor.value, s.history, cfg.toolBytes, inp.recovery).messages| != |s.history|
  {
    hide Force, AskedForSummary, Settle;
  }

  lemma PrunedHead(h: seq<Message>, from: nat)
    ensures HeadLength(Pruned(h, from)) == HeadLength(h) && |Pruned(h, from)| == |h|
  {
  }

  lemma ForceSummarizesIff(g: Gauge, st: Settings, msgs: seq<Message>, toolBytes: nat, reply: SummaryReply)
    requires g.ratio > 0.0
    ensures var from := RetainIndex(g, st, msgs);
            Force(g, st, msgs, toolBytes, reply).droppedAll
            <==> && Estimate(g, Pruned(msgs, from), toolBytes) >= Limit(st)
                 && CanSummarize(msgs, from) && reply.Summary? && Trim(reply.text) != ""
  {
    hide RetainIndex, Estimate, PrunedPaths, Trim;
    var from := RetainIndex(g, st, msgs);
    assert HeadLength(Pruned(msgs, from)) == HeadLength(msgs) && |Pruned(msgs, from)| == |msgs|;
    hide Pruned, HeadLength;
  }
}
