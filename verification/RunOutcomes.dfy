/** What a run makes of the answers it gets (internal/agent/loop.go, RunWithEvents): every
    answer, and the result of every call in it, joins the conversation and the outcome, word
    for word and in order, and a run that completes ends with its last answer. */
module RunOutcomes {
  import opened Wrappers
  import opened Messages
  import opened FileTools
  import opened Estimators
  import opened AgentRun

  // ---- One turn ----

  /** The first request is the history as it is, and what comes back is the answer to the
      last request made; a second one is made only after the first was found too long. */
  lemma ReplyIsToTheLastRequest(cfg: Config, s: RunState, inp: Input)
    requires s.gauge.ratio > 0.0
    ensures var (t, reply) := Asked(cfg, s, inp);
            && s.sent < t.sent && t.sent[|s.sent|].messages == s.history
            && t.sent[|t.sent| - 1].messages == t.history && t.produced == s.produced
            && if |t.sent| == |s.sent| + 1 then reply == inp.first
               else |t.sent| == |s.sent| + 2 && inp.first == Overflow && cfg.compactor.Some? && reply == inp.second
  {
    hide CompactNow;
  }

  /** A call's result as the model reads it: under the call's id, and marked if it failed. */
  function ResultFor(host: Host, call: ToolCall, reply: Reply): Message {
    var failed := reply.Failed? || reply.Missing? || reply.Denied?;
    Message(Tool, Content.Text(if failed then "Error: " + host.render(reply) else host.render(reply)),
            "", [], call.id, "", map[])
  }

  /** What an answer adds: itself, and the results of its calls, run in order. */
  function Contribution(host: Host, session: State, answer: Message, worlds: nat -> World): (more: seq<Message>)
    ensures |more| == 1 + |answer.toolCalls|
  {
    var calls := answer.toolCalls;
    var replies := RunInOrder(host, session, Jobs(calls, worlds)).replies;
    [answer.(role := Assistant)]
    + seq(|calls|, k requires 0 <= k < |calls| => ResultFor(host, calls[k], replies[k]))
  }

  lemma ResultIs(host: Host, call: ToolCall, reply: Reply)
    ensures ToolMessage(call.id, ResultText(host, reply)) == ResultFor(host, call, reply)
  {
    assert "" + host.render(reply) == host.render(reply);
  }

  lemma ResultsAre(host: Host, calls: seq<ToolCall>, replies: seq<Reply>)
    requires |calls| == |replies|
    ensures ResultMessages(host, calls, replies)
            == seq(|calls|, k requires 0 <= k < |calls| => ResultFor(host, calls[k], replies[k]))
  {
    hide ToolMessage, ResultText, ResultFor;
    forall k | 0 <= k < |calls|
      ensures ResultMessages(host, calls, replies)[k] == ResultFor(host, calls[k], replies[k])
    {
      ResultIs(host, calls[k], replies[k]);
    }
  }

  /** A turn that gets an answer: conversation and outcome grow by the answer and its
      results; it is over if there was nothing to call, or if it was called off; and what
      the answer cost is added up. */
  lemma TurnTakesTheAnswer(cfg: Config, s: RunState, inp: Input)
    requires Plausible(s.gauge) && Halted(cfg, s, inp).None? && Asked(cfg, Prepared(cfg, s, inp), inp).1.Answer?
    ensures var (asked, reply) := Asked(cfg, Prepared(cfg, s, inp), inp);
            var (t, a) := (Step(cfg, s, inp), reply.assistant);
            var more := Contribution(cfg.host, asked.session, a, inp.worlds);
            && t.history == asked.sent[|asked.sent| - 1].messages + more && t.produced == s.produced + more
            && t.status == (if a.toolCalls == [] then Finished(Complete)
                            else if inp.cancelledLater then Finished(Cancelled) else Running)
            && t.tokens == s.tokens + Cost(reply)
  {
    hide Prepared, Learned, OverwritesOf, SeeAll;
    PreparedProducesNothing(cfg, s, inp);
    var s1 := Prepared(cfg, s, inp);
    ReplyIsToTheLastRequest(cfg, s1, inp);
    var (asked, reply) := Asked(cfg, s1, inp);
    AskedCostsNothing(cfg, s1, inp);
    hide Asked;
    ActedContributes(cfg, asked, reply.assistant, reply.usage, inp);
    hide Acted, Contribution;
  }

  /** What the estimator learns from in a turn: the size of the request that was answered,
      its tools included, against the prompt tokens reported for it.  It learns nothing else,
      and nothing from a turn without such a report. */
  lemma TurnLearns(cfg: Config, s: RunState, inp: Input)
    requires Plausible(s.gauge)
    ensures var t := Step(cfg, s, inp);
            var (asked, reply) := Asked(cfg, Prepared(cfg, s, inp), inp);
            var prompt := Prompted(reply);
            t.gauge == if Halted(cfg, s, inp).Some? || cfg.compactor.None? || prompt == 0 then s.gauge
                       else Learn(s.gauge, Report(Bytes(asked.sent[|asked.sent| - 1].messages) + cfg.toolBytes, prompt))
  {
    hide *;
    PlausibleIsPositive(s.gauge);
    if Halted(cfg, s, inp).Some? {
      HaltedLearnsNothing(cfg, s, inp);
    } else {
      var s1 := Prepared(cfg, s, inp);
      PreparedKeepsGauge(cfg, s, inp);
      ReplyIsToTheLastRequest(cfg, s1, inp);
      var (asked, reply) := Asked(cfg, s1, inp);
      AnswerTeaches(cfg, s, inp);
    }
  }

  lemma HaltedLearnsNothing(cfg: Config, s: RunState, inp: Input)
    requires s.gauge.ratio > 0.0 && Halted(cfg, s, inp).Some?
    ensures Step(cfg, s, inp).gauge == s.gauge
  {
  }

  lemma PreparedKeepsGauge(cfg: Config, s: RunState, inp: Input)
    requires s.gauge.ratio > 0.0
    ensures Prepared(cfg, s, inp).gauge == s.gauge
    ensures Asked(cfg, Prepared(cfg, s, inp), inp).0.gauge == s.gauge
  {
    hide CompactNow;
  }

  lemma AnswerTeaches(cfg: Config, s: RunState, inp: Input)
    requires s.gauge.ratio > 0.0 && Halted(cfg, s, inp).None? && Prepared(cfg, s, inp).gauge.ratio > 0.0
    ensures var (asked, reply) := Asked(cfg, Prepared(cfg, s, inp), inp);
            Step(cfg, s, inp).gauge
            == if cfg.compactor.None? || Prompted(reply) == 0 then asked.gauge
               else Learn(asked.gauge, Report(Bytes(asked.history) + cfg.toolBytes, Prompted(reply)))
  {
    hide Learn, Bytes, RunInOrder, Prepared, Asked, OverwritesOf, SeeAll, Halted;
  }

  /** The prompt tokens reported with a reply; zero if there is no report. */
  function Prompted(reply: UpstreamReply): int {
    if (reply.Answer? || reply.NoChoices?) && reply.usage.Some? then reply.usage.value.prompt else 0
  }

  /** The tokens a reply is billed for. */
  function Cost(reply: UpstreamReply): int {
    if (reply.Answer? || reply.NoChoices?) && reply.usage.Some? then reply.usage.value.total else 0
  }

  lemma PreparedProducesNothing(cfg: Config, s: RunState, inp: Input)
    requires s.gauge.ratio > 0.0
    ensures var t := Prepared(cfg, s, inp); t.produced == s.produced && t.tokens == s.tokens && t.sent == s.sent
  {
    hide CompactNow;
  }

  lemma AskedCostsNothing(cfg: Config, s: RunState, inp: Input)
    requires s.gauge.ratio > 0.0
    ensures Asked(cfg, s, inp).0.tokens == s.tokens && Asked(cfg, s, inp).0.status == s.status
  {
    hide CompactNow;
  }

  lemma ActedContributes(cfg: Config, s: RunState, a: Message, usage: Option<Usage>, inp: Input)
    ensures var t := Acted(cfg, s, a, usage, inp);
            var more := Contribution(cfg.host, s.session, a, inp.worlds);
            && t.history == s.history + more && t.produced == s.produced + more
            && t.session == RunInOrder(cfg.host, s.session, Jobs(a.toolCalls, inp.worlds)).after
            && t.status == (if a.toolCalls == [] then Finished(Complete)
                            else if inp.cancelledLater then Finished(Cancelled) else Running)
            && t.tokens == s.tokens + if usage.Some? then usage.value.total else 0
  {
    hide Execute, ResultMessages, ResultFor, Learned, SeeAll, OverwritesOf;
    var calls := a.toolCalls;
    ResultsAre(cfg.host, calls, RunInOrder(cfg.host, s.session, Jobs(calls, inp.worlds)).replies);
    assert calls == [] ==> Contribution(cfg.host, s.session, a, inp.worlds) == [a.(role := Assistant)];
  }

  /** A turn that gets none: nothing is added, and the run is over. */
  lemma TurnWithoutAnswer(cfg: Config, s: RunState, inp: Input)
    requires Plausible(s.gauge) && (Halted(cfg, s, inp).None? ==> !Asked(cfg, Prepared(cfg, s, inp), inp).1.Answer?)
    ensures var t := Step(cfg, s, inp);
            && t.produced == s.produced && t.status != Running && t.status != Finished(Complete)
            && t.tokens == s.tokens + if Halted(cfg, s, inp).Some? then 0
                                      else Cost(Asked(cfg, Prepared(cfg, s, inp), inp).1)
    ensures Halted(cfg, s, inp).Some? ==> Step(cfg, s, inp).history == s.history
  {
    hide Prepared, Learned;
    if Halted(cfg, s, inp).None? {
      PreparedProducesNothing(cfg, s, inp);
      ReplyIsToTheLastRequest(cfg, Prepared(cfg, s, inp), inp);
      AskedCostsNothing(cfg, Prepared(cfg, s, inp), inp);
      hide Asked;
    }
  }

  // ---- Whole runs ----

  /** What came back in the turns of a run that was not over before they began. */
  ghost function Heard(cfg: Config, s: RunState, inputs: seq<Input>): seq<UpstreamReply>
    requires Plausible(s.gauge)
    decreases inputs
  {
    if inputs == [] || s.status != Running then []
    else
      StepKeepsGauge(cfg, s, inputs[0]);
      (if Halted(cfg, s, inputs[0]).Some? then [] else [Asked(cfg, Prepared(cfg, s, inputs[0]), inputs[0]).1])
      + Heard(cfg, Step(cfg, s, inputs[0]), inputs[1..])
  }

  /** The answers among the replies, as the assistant's words. */
  function AnswersIn(replies: seq<UpstreamReply>): seq<Message> {
    if replies == [] then []
    else (if replies[0].Answer? then [replies[0].assistant.(role := Assistant)] else []) + AnswersIn(replies[1..])
  }

  function Spoken(ms: seq<Message>): seq<Message> {
    if ms == [] then [] else (if ms[0].role == Assistant then [ms[0]] else []) + Spoken(ms[1..])
  }

  function Bill(replies: seq<UpstreamReply>): int {
    if replies == [] then 0 else Cost(replies[0]) + Bill(replies[1..])
  }

  lemma SpokenCons(m: Message, rest: seq<Message>)
    ensures Spoken([m] + rest) == (if m.role == Assistant then [m] else []) + Spoken(rest)
  {
    assert ([m] + rest)[1..] == rest;
  }

  lemma {:induction false} SpokenAppend(a: seq<Message>, b: seq<Message>)
    ensures Spoken(a + b) == Spoken(a) + Spoken(b)
    decreases a
  {
    hide *;
    if a == [] {
      NothingSpoken([]);
      assert a + b == b && [] + Spoken(b) == Spoken(b);
    } else {
      var m, rest := a[0], a[1..];
      SpokenAppend(rest, b);
      SpokenCons(m, rest);
      SpokenCons(m, rest + b);
      assert a == [m] + rest && a + b == [m] + (rest + b);
      var mine := if m.role == Assistant then [m] else [];
      assert mine + Spoken(rest) + Spoken(b) == mine + (Spoken(rest) + Spoken(b));
    }
  }

  lemma {:induction false} NothingSpoken(ms: seq<Message>)
    requires forall k | 0 <= k < |ms| :: ms[k].role != Assistant
    ensures Spoken(ms) == []
  {
    if ms != [] { NothingSpoken(ms[1..]); }
  }

  lemma ContributionSpeaksOnce(host: Host, session: State, a: Message, worlds: nat -> World)
    ensures Spoken(Contribution(host, session, a, worlds)) == [a.(role := Assistant)]
  {
    var more := Contribution(host, session, a, worlds);
    NothingSpoken(more[1..]);
    assert [a.(role := Assistant)] + [] == [a.(role := Assistant)];
  }

  lemma AnswersCons(reply: UpstreamReply, rest: seq<UpstreamReply>)
    ensures AnswersIn([reply] + rest)
            == (if reply.Answer? then [reply.assistant.(role := Assistant)] else []) + AnswersIn(rest)
    ensures Bill([reply] + rest) == Cost(reply) + Bill(rest)
  {
    assert ([reply] + rest)[1..] == rest;
  }

  lemma HeardCons(cfg: Config, s: RunState, inputs: seq<Input>)
    requires Plausible(s.gauge) && inputs != [] && s.status == Running && Plausible(Step(cfg, s, inputs[0]).gauge)
    ensures var (heard, rest) := (Heard(cfg, s, inputs), Heard(cfg, Step(cfg, s, inputs[0]), inputs[1..]));
            if Halted(cfg, s, inputs[0]).Some? then heard == rest
            else heard == [Asked(cfg, Prepared(cfg, s, inputs[0]), inputs[0]).1] + rest
    ensures Run(cfg, s, inputs) == Run(cfg, Step(cfg, s, inputs[0]), inputs[1..])
  {
    hide Step, Asked, Prepared, Halted;
    var rest := Heard(cfg, Step(cfg, s, inputs[0]), inputs[1..]);
    assert [] + rest == rest;
  }

  lemma PlausibleIsPositive(g: Gauge)
    requires Plausible(g)
    ensures g.ratio > 0.0
  {
  }

  /** The assistant's messages in what a run produced are the answers that came back, each
      once and in order, and its tokens are theirs. */
  lemma {:induction false} AnswersAreProduced(cfg: Config, s: RunState, inputs: seq<Input>)
    requires Plausible(s.gauge)
    ensures var (end, heard) := (Run(cfg, s, inputs), Heard(cfg, s, inputs));
            Spoken(end.produced) == Spoken(s.produced) + AnswersIn(heard) && end.tokens == s.tokens + Bill(heard)
    decreases inputs
  {
    hide *;
    PlausibleIsPositive(s.gauge);
    if inputs != [] && s.status == Running {
      var inp := inputs[0];
      StepKeepsGauge(cfg, s, inp);
      var t := Step(cfg, s, inp);
      var rest := Heard(cfg, t, inputs[1..]);
      AnswersAreProduced(cfg, t, inputs[1..]);
      HeardCons(cfg, s, inputs);
      TurnSpeaks(cfg, s, inp);
      if Halted(cfg, s, inp).None? {
        var reply := Asked(cfg, Prepared(cfg, s, inp), inp).1;
        AnswersCons(reply, rest);
        var mine := if reply.Answer? then [reply.assistant.(role := Assistant)] else [];
        assert Spoken(s.produced) + mine + AnswersIn(rest) == Spoken(s.produced) + (mine + AnswersIn(rest));
      }
    } else {
      RunIsOver(cfg, s, inputs);
      assert Spoken(s.produced) + [] == Spoken(s.produced);
    }
  }

  lemma TurnSpeaks(cfg: Config, s: RunState, inp: Input)
    requires Plausible(s.gauge)
    ensures var t := Step(cfg, s, inp);
            if Halted(cfg, s, inp).Some? then Spoken(t.produced) == Spoken(s.produced) && t.tokens == s.tokens
            else
              var reply := Asked(cfg, Prepared(cfg, s, inp), inp).1;
              && t.tokens == s.tokens + Cost(reply)
              && Spoken(t.produced)
                 == Spoken(s.produced) + if reply.Answer? then [reply.assistant.(role := Assistant)] else []
  {
    hide Spoken, Contribution, Prepared, Asked, Step, Halted, Cost;
    if Halted(cfg, s, inp).None? && Asked(cfg, Prepared(cfg, s, inp), inp).1.Answer? {
      TurnTakesTheAnswer(cfg, s, inp);
      var (asked, reply) := Asked(cfg, Prepared(cfg, s, inp), inp);
      var more := Contribution(cfg.host, asked.session, reply.assistant, inp.worlds);
      SpokenAppend(s.produced, more);
      ContributionSpeaksOnce(cfg.host, asked.session, reply.assistant, inp.worlds);
    } else {
      TurnWithoutAnswer(cfg, s, inp);
      assert Spoken(s.produced) + [] == Spoken(s.produced);
    }
  }

  /** A run that completes ends with its last answer: nothing is called in it, and it is the
      last message of the outcome and of the conversation. */
  lemma {:induction false} CompletionIsTheLastAnswer(cfg: Config, s: RunState, inputs: seq<Input>)
    requires Plausible(s.gauge) && s.status == Running && Run(cfg, s, inputs).status == Finished(Complete)
    ensures var (end, answers) := (Run(cfg, s, inputs), AnswersIn(Heard(cfg, s, inputs)));
            && answers != [] && end.produced != [] && end.history != []
            && var last := answers[|answers| - 1];
               && last.toolCalls == [] && last.role == Assistant
               && end.produced[|end.produced| - 1] == last && end.history[|end.history| - 1] == last
    decreases inputs
  {
    hide *;
    PlausibleIsPositive(s.gauge);
    if inputs == [] { RunIsOver(cfg, s, inputs); }
    var inp := inputs[0];
    StepKeepsGauge(cfg, s, inp);
    var t := Step(cfg, s, inp);
    HeardCons(cfg, s, inputs);
    var rest := Heard(cfg, t, inputs[1..]);
    if t.status == Running {
      CompletionIsTheLastAnswer(cfg, t, inputs[1..]);
      TurnGoesOn(cfg, s, inp);
    } else {
      RunIsOver(cfg, t, inputs[1..]);
      TurnCompletes(cfg, s, inp);
    }
    AnswersCons(Asked(cfg, Prepared(cfg, s, inp), inp).1, rest);
  }

  lemma RunIsOver(cfg: Config, s: RunState, inputs: seq<Input>)
    requires Plausible(s.gauge) && (inputs == [] || s.status != Running)
    ensures Run(cfg, s, inputs) == s && Heard(cfg, s, inputs) == [] && AnswersIn([]) == [] && Bill([]) == 0
  {
  }

  lemma TurnGoesOn(cfg: Config, s: RunState, inp: Input)
    requires Plausible(s.gauge) && Step(cfg, s, inp).status == Running
    ensures Halted(cfg, s, inp).None? && Asked(cfg, Prepared(cfg, s, inp), inp).1.Answer?
  {
    hide Prepared, Asked, Acted;
    if Halted(cfg, s, inp).Some? || !Asked(cfg, Prepared(cfg, s, inp), inp).1.Answer? {
      TurnWithoutAnswer(cfg, s, inp);
    }
  }

  lemma TurnCompletes(cfg: Config, s: RunState, inp: Input)
    requires Plausible(s.gauge) && Step(cfg, s, inp).status == Finished(Complete)
    ensures Halted(cfg, s, inp).None? && Asked(cfg, Prepared(cfg, s, inp), inp).1.Answer?
    ensures var (t, a) := (Step(cfg, s, inp), Asked(cfg, Prepared(cfg, s, inp), inp).1.assistant.(role := Assistant));
            && a.toolCalls == [] && t.produced != [] && t.produced[|t.produced| - 1] == a
            && t.history != [] && t.history[|t.history| - 1] == a
  {
    hide Prepared, Asked, Acted, Step, Halted;
    if Halted(cfg, s, inp).Some? || !Asked(cfg, Prepared(cfg, s, inp), inp).1.Answer? {
      TurnWithoutAnswer(cfg, s, inp);
    } else {
      TurnTakesTheAnswer(cfg, s, inp);
    }
  }

  // ---- Without a compactor ----

  /** With nothing to compact it, the conversation is what it began with and all that was
      produced, and every request was the conversation as it stood. */
  lemma {:induction false} ConversationIsWhole(cfg: Config, s: RunState, inputs: seq<Input>, base: seq<Message>)
    requires Plausible(s.gauge) && cfg.compactor.None? && s.history == base + s.produced
    requires forall r | 0 <= r < |s.sent| :: base <= s.sent[r].messages <= s.history
    ensures var end := Run(cfg, s, inputs);
            && end.history == base + end.produced
            && forall r | 0 <= r < |end.sent| :: base <= end.sent[r].messages <= end.history
    decreases inputs
  {
    if inputs != [] && s.status == Running {
      StepKeepsGauge(cfg, s, inputs[0]);
      TurnExtends(cfg, s, inputs[0], base);
      ConversationIsWhole(cfg, Step(cfg, s, inputs[0]), inputs[1..], base);
    }
  }

  lemma TurnExtends(cfg: Config, s: RunState, inp: Input, base: seq<Message>)
    requires Plausible(s.gauge) && cfg.compactor.None? && s.history == base + s.produced
    requires forall r | 0 <= r < |s.sent| :: base <= s.sent[r].messages <= s.history
    ensures var t := Step(cfg, s, inp);
            && t.history == base + t.produced
            && forall r | 0 <= r < |t.sent| :: base <= t.sent[r].messages <= t.history
  {
    hide Prepared, Asked, Acted, Learned, Contribution;
    if Halted(cfg, s, inp).None? {
      AsksAsItStands(cfg, s, inp);
      var (asked, reply) := Asked(cfg, Prepared(cfg, s, inp), inp);
      if reply.Answer? {
        ActedContributes(cfg, asked, reply.assistant, reply.usage, inp);
        ActedSendsNothing(cfg, asked, reply.assistant, reply.usage, inp);
        var more := Contribution(cfg.host, asked.session, reply.assistant, inp.worlds);
        assert base + s.produced + more == base + (s.produced + more);
      }
    }
  }

  lemma AsksAsItStands(cfg: Config, s: RunState, inp: Input)
    requires s.gauge.ratio > 0.0 && cfg.compactor.None?
    ensures var asked := Asked(cfg, Prepared(cfg, s, inp), inp).0;
            && asked.history == s.history && asked.produced == s.produced
            && asked.sent == s.sent + [Sent(s.history, asked.session.entries, asked.seen)]
  {
  }

  /** So without a compactor every request of a run is our prompt, the client's conversation
      without its instructions, and what the run has produced so far. */
  lemma RequestsAreWhole(cfg: Config, session: State, gauge: Gauge, prompt: string, request: seq<Message>,
                         inputs: seq<Input>)
    requires Plausible(gauge) && cfg.compactor.None?
    ensures var base := [Message(System, Content.Text(prompt), "", [], "", "", map[])] + WithoutSystem(request);
            var end := Run(cfg, Start(session, gauge, prompt, request), inputs);
            && end.history == base + end.produced
            && forall r | 0 <= r < |end.sent| :: base <= end.sent[r].messages <= end.history
  {
    var start := Start(session, gauge, prompt, request);
    assert start.history + [] == start.history;
    ConversationIsWhole(cfg, start, inputs, start.history);
  }
}
