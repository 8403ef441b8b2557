/** The loop itself (internal/agent/loop.go and budget.go), over the session, ledger and
    estimator it updates.  It takes exactly the steps of AgentRun. */
module Loop {
  import opened Wrappers
  import opened Messages
  import opened Ledgers
  import opened FileTools
  import opened Sessions
  import opened Scheduler
  import opened Estimators
  import opened Compaction
  import opened AgentRun
  import opened RunOutcomes

  class Tracker {
    const maxIterations: int
    const maxTokens: int
    var iterations: nat
    var tokens: int

    constructor (maxIterations: int, maxTokens: int)
      ensures this.maxIterations == maxIterations && this.maxTokens == maxTokens
      ensures iterations == 0 && tokens == 0
    {
      this.maxIterations, this.maxTokens := maxIterations, maxTokens;
      iterations, tokens := 0, 0;
    }

    /** One more model call, or the reason there cannot be one. */
    method BeginIteration(clockOut: bool) returns (stop: Option<Stop>)
      modifies this
      ensures tokens == old(tokens)
      ensures stop == if maxIterations > 0 && old(iterations) >= maxIterations then Some(MaxIterations)
                      else if clockOut then Some(WallClock)
                      else if maxTokens > 0 && tokens >= maxTokens then Some(MaxTokens)
                      else None
      ensures iterations == old(iterations) + if stop.None? then 1 else 0
    {
      if maxIterations > 0 && iterations >= maxIterations { return Some(MaxIterations); }
      if clockOut { return Some(WallClock); }
      if maxTokens > 0 && tokens >= maxTokens { return Some(MaxTokens); }
      iterations := iterations + 1;
      return None;
    }

    method AddUsage(usage: Option<Usage>)
      modifies this
      ensures iterations == old(iterations)
      ensures tokens == old(tokens) + if usage.Some? then usage.value.total else 0
    {
      if usage.Some? { tokens := tokens + usage.value.total; }
    }
  }

  lemma {:induction false} RunSnoc(cfg: Config, s: RunState, inputs: seq<Input>, inp: Input)
    requires Plausible(s.gauge) && Run(cfg, s, inputs).status == Running
    ensures Run(cfg, s, inputs + [inp]) == Step(cfg, Run(cfg, s, inputs), inp)
    decreases inputs
  {
    if inputs == [] {
      assert [] + [inp] == [inp];
      StepKeepsGauge(cfg, s, inp);
      assert Run(cfg, Step(cfg, s, inp), []) == Step(cfg, s, inp);
    } else {
      assert (inputs + [inp])[1..] == inputs[1..] + [inp];
      StepKeepsGauge(cfg, s, inputs[0]);
      if s.status == Running { RunSnoc(cfg, Step(cfg, s, inputs[0]), inputs[1..], inp); }
    }
  }

  /** The first n entries of a script. */
  function Prefix(script: nat -> Input, n: nat): seq<Input> {
    if n == 0 then [] else Prefix(script, n - 1) + [script(n - 1)]
  }

  class AgentLoop {
    const cfg: Config
    const compactor: Compactor?
    const maxParallel: int

    ghost predicate Valid() {
      cfg.compactor == if compactor == null then None else Some(compactor.settings)
    }

    constructor (cfg: Config, compactor: Compactor?, maxParallel: int)
      requires cfg.compactor == if compactor == null then None else Some(compactor.settings)
      ensures Valid() && this.cfg == cfg && this.compactor == compactor
    {
      this.cfg, this.compactor, this.maxParallel := cfg, compactor, maxParallel;
    }

    /** The objects agree with a state of the machine. */
    ghost predicate Agrees(s: Session, history: seq<Message>, g: RunState)
      reads s, s.ledger, if compactor == null then {} else {compactor.est}
    {
      && s.View() == g.session && history == g.history && s.host == cfg.host && s.Valid()
      && Plausible(g.gauge) && (compactor != null ==> compactor.est.View() == g.gauge)
    }

    lemma CompactIs(g: RunState, reply: SummaryReply, force: bool)
      requires g.gauge.ratio > 0.0
      ensures var c, r, es := Chosen(cfg, g, reply, force), CompactNow(cfg, g, reply, force), g.session.entries;
              && r.messages == c.messages && (c.how == Kept ==> c.messages == g.history)
              && r.entries == (if c.how == Kept then es
                               else if c.droppedAll then StaledBefore(es, g.turnCounter) else Staled(es, c.prunedPaths))
              && r.asked == if c.how == Kept then 0
                            else AskedForSummary(g.gauge, cfg.compactor.value, g.history, cfg.toolBytes, reply)
    {
      hide AskedForSummary;
    }

    /** Compact, and withdraw the observations whose evidence went. */
    method Compact(s: Session, history: seq<Message>, reply: SummaryReply, force: bool, turn: int, ghost g: RunState)
      returns (messages: seq<Message>, asked: nat)
      requires Valid() && Agrees(s, history, g) && turn == g.turnCounter
      modifies s.ledger
      ensures var c := CompactNow(cfg, g, reply, force);
              messages == c.messages && asked == c.asked && s.View() == old(s.View()).(entries := c.entries)
    {
      CompactIs(g, reply, force);
      hide Force, Maybe, CompactNow, Staled, StaledBefore, AskedForSummary;
      asked := 0;
      if compactor == null { return history, asked; }
      var c;
      if force {
        c, asked := compactor.ForceCompact(history, cfg.toolBytes, reply);
      } else {
        c, asked := compactor.MaybeCompact(history, cfg.toolBytes, reply);
      }
      if c.how == Kept { return history, asked; }
      Withdraw(s, c, turn);
      return c.messages, asked;
    }

    /** Mark stale what a compaction took out of view. */
    method Withdraw(s: Session, c: Compacted, turn: int)
      modifies s.ledger
      ensures s.ledger.entries == if c.droppedAll then StaledBefore(old(s.ledger.entries), turn)
                                  else Staled(old(s.ledger.entries), c.prunedPaths)
    {
      hide *;
      if c.droppedAll {
        var n := s.ledger.MarkStaleBefore(turn);
      } else {
        var n := s.ledger.MarkStale(c.prunedPaths);
      }
    }

    /** Send the turn; after an overflow compact hard and send once more. */
    method CompleteWithOverflowRecovery(s: Session, history: seq<Message>, inp: Input, turn: int, ghost g: RunState)
      returns (history': seq<Message>, reply: UpstreamReply, sent: seq<seq<Message>>, asked: nat)
      requires Valid() && Agrees(s, history, g) && turn == g.turnCounter
      modifies s.ledger
      ensures var (g', r) := Asked(cfg, g, inp);
              && Agrees(s, history', g') && reply == r
              && Requests(g'.sent) == Requests(g.sent) + sent && g'.completions == g.completions + |sent| + asked
    {
      hide CompactNow, Requests;
      RequestsSnoc(g.sent, Sent(g.history, g.session.entries, g.seen));
      sent := [history];
      asked := 0;
      if inp.first != Overflow || compactor == null { return history, inp.first, sent, asked; }
      var compacted;
      compacted, asked := Compact(s, history, inp.recovery, true, turn, SendNow(g));
      if |compacted| == |history| { return history, Overflow, sent, asked; }
      RequestsSnoc(SendNow(g).sent, Sent(compacted, CompactNow(cfg, SendNow(g), inp.recovery, true).entries, g.seen));
      return compacted, inp.second, sent + [compacted], asked;
    }

    lemma ActedIs(g: RunState, answer: Message, usage: Option<Usage>, inp: Input, results: seq<Reply>, after: State)
      requires answer.toolCalls != []
      requires Turn(after, results) == RunInOrder(cfg.host, g.session, Jobs(answer.toolCalls, inp.worlds))
      ensures |results| == |answer.toolCalls|
      ensures var all := ResultMessages(cfg.host, answer.toolCalls, results);
              var g' := Acted(cfg, g, answer, usage, inp);
              var more := [answer.(role := Assistant)] + all;
              && |all| == |results|
              && (forall k | 0 <= k < |all| ::
                    all[k] == ToolMessage(answer.toolCalls[k].id, ResultText(cfg.host, results[k])))
              && g'.session == after && g'.history == g.history + more && g'.produced == g.produced + more
    {
    }

    /** The answer's calls run; the answer and their results are what the turn adds. */
    method Act(s: Session, assistant: Message, inp: Input, ghost g: RunState, ghost answer: Message,
               ghost usage: Option<Usage>)
      returns (more: seq<Message>)
      requires Valid() && s.View() == g.session && s.host == cfg.host && s.Valid()
      requires assistant == answer.(role := Assistant) && assistant.toolCalls != []
      modifies s`files, s.ledger
      ensures var g' := Acted(cfg, g, answer, usage, inp);
              s.View() == g'.session && g.history + more == g'.history && g.produced + more == g'.produced
    {
      hide *;
      var jobs := Jobs(assistant.toolCalls, inp.worlds);
      var results, batches := RunToolCalls(s, jobs, maxParallel);
      ActedIs(g, answer, usage, inp, results, s.View());
      more := [assistant];
      var i := 0;
      ghost var all := ResultMessages(cfg.host, assistant.toolCalls, results);
      while i < |results|
        invariant 0 <= i <= |results| == |all|
        invariant more == [assistant] + all[..i]
      {
        more := more + [ToolMessage(assistant.toolCalls[i].id, ResultText(cfg.host, results[i]))];
        assert all[..i + 1] == all[..i] + [all[i]];
        i := i + 1;
      }
      assert all[..i] == all;
    }

    /** Start a turn: stamp it, compact, and ask. */
    method AskUpstream(s: Session, history: seq<Message>, turn: nat, inp: Input, ghost g: RunState)
      returns (history': seq<Message>, reply: UpstreamReply, sent: seq<seq<Message>>, asked: nat)
      requires Valid() && Agrees(s, history, g) && turn == g.turnCounter + 1
      modifies s`turn, s.ledger
      ensures var (g', r) := Asked(cfg, Prepared(cfg, g, inp), inp);
              && Agrees(s, history', g') && reply == r
              && Requests(g'.sent) == Requests(g.sent) + sent && g'.completions == g.completions + |sent| + asked
    {
      s.turn := turn;
      history', asked := Compact(s, history, inp.before, false, turn, NextTurn(g));
      var again;
      history', reply, sent, again := CompleteWithOverflowRecovery(s, history', inp, turn, Prepared(cfg, g, inp));
      asked := asked + again;
    }

    /** Feed back what a completion cost. */
    method Charge(tracker: Tracker, history: seq<Message>, usage: Option<Usage>, ghost g: RunState)
      requires Valid() && tracker.tokens == g.tokens && history == g.history
      requires compactor != null ==> compactor.est.View() == g.gauge
      modifies tracker, if compactor == null then {} else {compactor.est}
      ensures tracker.iterations == old(tracker.iterations) && Costed(tracker, Charged(cfg, g, usage))
    {
      tracker.AddUsage(usage);
      if compactor != null && usage.Some? && usage.value.prompt != 0 {
        compactor.est.Observe(Bytes(history) + cfg.toolBytes, usage.value.prompt);
      }
    }

    /** The counters agree with a state of the machine. */
    ghost predicate Costed(tracker: Tracker, g: RunState)
      reads tracker, if compactor == null then {} else {compactor.est}
    {
      tracker.tokens == g.tokens && (compactor != null ==> compactor.est.View() == g.gauge)
    }

    /** Feed back what the answer cost, then act on it. */
    method Absorb(s: Session, tracker: Tracker, history: seq<Message>, answer: Message, usage: Option<Usage>,
                  inp: Input, ghost g: RunState)
      returns (more: seq<Message>, status: Status)
      requires Valid() && Agrees(s, history, g) && g.status == Running && tracker.tokens == g.tokens
      modifies s`files, s.ledger, tracker, if compactor == null then {} else {compactor.est}
      ensures var g' := Acted(cfg, g, answer, usage, inp);
              && status == g'.status && s.View() == g'.session
              && history + more == g'.history && g.produced + more == g'.produced
              && tracker.iterations == old(tracker.iterations) && Costed(tracker, g')
    {
      Charge(tracker, history, usage, g);
      var assistant := answer.(role := Assistant);
      if assistant.toolCalls == [] { return [assistant], Finished(Complete); }
      more := Act(s, assistant, inp, g, answer, usage);
      status := if inp.cancelledLater then Finished(Cancelled) else Running;
    }

    /** The objects and local variables of the loop agree with a state of the machine. */
    ghost predicate InStep(s: Session, tracker: Tracker, history: seq<Message>, g: RunState)
      reads s, s.ledger, tracker, if compactor == null then {} else {compactor.est}
    {
      && Valid() && Agrees(s, history, g) && g.status == Running
      && tracker.iterations == g.iterations == g.turnCounter && tracker.tokens == g.tokens
      && tracker.maxIterations == cfg.maxIterations && tracker.maxTokens == cfg.maxTokens
    }

    lemma InStepMeans(s: Session, tracker: Tracker, history: seq<Message>, g: RunState)
      requires InStep(s, tracker, history, g)
      ensures Valid() && Agrees(s, history, g) && g.status == Running && s.View() == g.session
      ensures Plausible(g.gauge) && g.gauge.ratio > 0.0 && Costed(tracker, g) && s.Valid() && s.host == cfg.host
      ensures tracker.iterations == g.iterations == g.turnCounter && tracker.tokens == g.tokens
      ensures tracker.maxIterations == cfg.maxIterations && tracker.maxTokens == cfg.maxTokens
    {
    }

    lemma CostedAlike(tracker: Tracker, g: RunState, g': RunState)
      requires Costed(tracker, g) && g'.tokens == g.tokens && g'.gauge == g.gauge
      ensures Costed(tracker, g')
    {
    }

    lemma StaysInStep(s: Session, tracker: Tracker, history: seq<Message>, g: RunState)
      requires Valid() && s.Valid() && s.host == cfg.host && s.View() == g.session && Plausible(g.gauge)
      requires Costed(tracker, g)
      requires tracker.iterations == g.iterations == g.turnCounter
      requires tracker.maxIterations == cfg.maxIterations && tracker.maxTokens == cfg.maxTokens
      ensures history == g.history && g.status == Running ==> InStep(s, tracker, history, g)
    {
    }

    /** The checks ahead of a turn. */
    method BeginTurn(tracker: Tracker, inp: Input, ghost g: RunState) returns (status: Status)
      requires tracker.iterations == g.iterations && Costed(tracker, g)
      requires tracker.maxIterations == cfg.maxIterations && tracker.maxTokens == cfg.maxTokens
      modifies tracker
      ensures status == (match Halted(cfg, g, inp) case Some(end) => end.status case None => Running)
      ensures Costed(tracker, g) && (status == Running ==> tracker.iterations == g.iterations + 1)
      ensures status == Running && cfg.maxIterations > 0 ==> g.iterations < cfg.maxIterations
      ensures status == Running <==> Halted(cfg, g, inp).None?
    {
      var stop := tracker.BeginIteration(inp.clockOut);
      if stop.Some? { return Finished(stop.value); }
      if inp.cancelled { return Finished(Cancelled); }
      return Running;
    }

    lemma HaltedStep(g: RunState, inp: Input)
      requires Plausible(g.gauge) && Halted(cfg, g, inp).Some?
      ensures var g' := Step(cfg, g, inp);
              && g' == Halted(cfg, g, inp).value && g'.session == g.session && g'.sent == g.sent
              && g'.produced == g.produced && g'.tokens == g.tokens && g'.gauge == g.gauge
              && g'.completions == g.completions
    {
    }

    /** What a reply makes of the state it finds. */
    ghost function Responded(g: RunState, reply: UpstreamReply, inp: Input): RunState {
      match reply
      case Answer(assistant, usage) => Acted(cfg, g, assistant, usage, inp)
      case NoChoices(usage) => Charged(cfg, g, usage).(status := Errored)
      case _ => g.(status := if inp.cancelledLater then Finished(Cancelled) else Errored)
    }

    lemma AskedStep(g: RunState, inp: Input)
      requires Plausible(g.gauge) && Halted(cfg, g, inp).None?
      ensures var (g', reply) := Asked(cfg, Prepared(cfg, g, inp), inp);
              Step(cfg, g, inp) == Responded(g', reply, inp)
    {
    }

    lemma StepKeepsPlausible(g: RunState, inp: Input)
      requires Plausible(g.gauge)
      ensures Plausible(Step(cfg, g, inp).gauge)
      ensures cfg.compactor.None? ==> Step(cfg, g, inp).gauge == g.gauge
    {
      StepKeepsGauge(cfg, g, inp);
      hide Prepared, Asked;
    }

    /** What follows the reply: an answer is paid for and acted on, a reply without choices
        is paid for and is an error, and so is any other failure. */
    method Respond(s: Session, tracker: Tracker, history: seq<Message>, reply: UpstreamReply, inp: Input,
                   ghost g: RunState)
      returns (more: seq<Message>, status: Status)
      requires Valid() && Agrees(s, history, g) && g.status == Running && Costed(tracker, g)
      modifies s`files, s.ledger, tracker, if compactor == null then {} else {compactor.est}
      ensures var g' := Responded(g, reply, inp);
              && status == g'.status && s.View() == g'.session && g'.produced == g.produced + more
              && history + more == g'.history
              && tracker.iterations == old(tracker.iterations) && Costed(tracker, g')
    {
      hide Acted;
      more := [];
      match reply {
        case Answer(assistant, usage) =>
          more, status := Absorb(s, tracker, history, assistant, usage, inp, g);
        case NoChoices(usage) =>
          Charge(tracker, history, usage, g);
          status := Errored;
        case _ =>
          status := if inp.cancelledLater then Finished(Cancelled) else Errored;
      }
    }

    lemma RespondedKeepsRest(g: RunState, reply: UpstreamReply, inp: Input)
      ensures var g' := Responded(g, reply, inp);
              && g'.iterations == g.iterations && g'.turnCounter == g.turnCounter
              && g'.sent == g.sent && g'.completions == g.completions
    {
    }

    /** One pass of the loop. */
    method TakeTurn(s: Session, tracker: Tracker, history: seq<Message>, turn: nat, inp: Input, ghost g: RunState)
      returns (history': seq<Message>, more: seq<Message>, status: Status, sent: seq<seq<Message>>, asked: nat)
      requires InStep(s, tracker, history, g) && turn == g.turnCounter
      modifies s`files, s`turn, s.ledger, tracker, if compactor == null then {} else {compactor.est}
      ensures var g' := Step(cfg, g, inp);
              && status == g'.status && s.View() == g'.session
              && Requests(g'.sent) == Requests(g.sent) + sent && g'.completions == g.completions + |sent| + asked
              && g'.produced == g.produced + more && Costed(tracker, g')
              && (status == Running ==> InStep(s, tracker, history', g') && g'.turnCounter == turn + 1)
      ensures status == Running && cfg.maxIterations > 0 ==> turn < cfg.maxIterations
    {
      hide *;
      InStepMeans(s, tracker, history, g);
      StepKeepsPlausible(g, inp);
      history', more, sent, asked := history, [], [], 0;
      status := BeginTurn(tracker, inp, g);
      if status != Running {
        HaltedStep(g, inp);
        CostedAlike(tracker, g, Step(cfg, g, inp));
        assert Requests(g.sent) + [] == Requests(g.sent) && g.produced + [] == g.produced;
        return;
      }
      AskedStep(g, inp);
      ghost var (g2, answer) := Asked(cfg, Prepared(cfg, g, inp), inp);
      AskedKeepsRest(g, inp);
      RespondedKeepsRest(g2, answer, inp);
      CostedAlike(tracker, g, g2);
      var reply;
      history', reply, sent, asked := AskUpstream(s, history, turn + 1, inp, g);
      more, status := Respond(s, tracker, history', reply, inp, g2);
      history' := history' + more;
      StaysInStep(s, tracker, history', Step(cfg, g, inp));
    }

    lemma AskedKeepsRest(g: RunState, inp: Input)
      requires Plausible(g.gauge)
      ensures var g' := Asked(cfg, Prepared(cfg, g, inp), inp).0;
              && g'.iterations == g.iterations + 1 && g'.turnCounter == g.turnCounter + 1
              && g'.produced == g.produced && g'.tokens == g.tokens && g'.status == g.status && g'.gauge == g.gauge
    {
      hide CompactNow;
    }

    lemma DrivenOn(start: RunState, script: nat -> Input, n: nat)
      requires Plausible(start.gauge) && Run(cfg, start, Prefix(script, n)).status == Running
      ensures Run(cfg, start, Prefix(script, n)).gauge.ratio > 0.0
      ensures Run(cfg, start, Prefix(script, n + 1)) == Step(cfg, Run(cfg, start, Prefix(script, n)), script(n))
    {
      RunSnoc(cfg, start, Prefix(script, n), script(n));
    }

    /** What a run of the machine may cost at most. */
    lemma Affords(start: RunState, script: nat -> Input, n: nat)
      requires cfg.maxIterations > 0 && Plausible(start.gauge) && start.iterations == start.turnCounter == 0
      requires start.sent == [] && start.completions == 0
      ensures var end := Run(cfg, start, Prefix(script, n));
              |Requests(end.sent)| <= 2 * cfg.maxIterations && end.completions <= 4 * cfg.maxIterations
    {
      RunIsAffordable(cfg, start, Prefix(script, n));
      AsManyRequests(Run(cfg, start, Prefix(script, n)).sent);
    }

    lemma {:induction false} AsManyRequests(sent: seq<Sent>)
      ensures |Requests(sent)| == |sent|
    {
      if sent != [] { AsManyRequests(sent[..|sent| - 1]); }
    }

    lemma NotDrivenYet(start: RunState, script: nat -> Input)
      requires Plausible(start.gauge)
      ensures Run(cfg, start, Prefix(script, 0)) == start && Requests([]) == []
    {
    }

    /** The loop, from wherever it stands. */
    method Drive(s: Session, tracker: Tracker, history: seq<Message>, script: nat -> Input, ghost start: RunState)
      returns (status: Status, messages: seq<Message>, sent: seq<seq<Message>>, asked: nat, n: nat)
      requires InStep(s, tracker, history, start) && start.turnCounter == 0 && cfg.maxIterations > 0
      requires start.sent == [] && start.produced == [] && start.completions == 0
      modifies s`files, s`turn, s.ledger, tracker, if compactor == null then {} else {compactor.est}
      ensures var end := Run(cfg, start, Prefix(script, n));
              && status == end.status != Running && s.View() == end.session
              && messages == end.produced && sent == Requests(end.sent) && |sent| + asked == end.completions
              && Costed(tracker, end)
      ensures n <= cfg.maxIterations + 1
    {
      hide *;
      InStepMeans(s, tracker, history, start);
      NotDrivenYet(start, script);
      status, messages, sent, asked, n := Running, [], [], 0, 0;
      var current := history;
      ghost var g := start;
      while status == Running
        invariant g == Run(cfg, start, Prefix(script, n)) && g.status == status && s.View() == g.session
        invariant status == Running ==> InStep(s, tracker, current, g) && g.turnCounter == n
        invariant n <= cfg.maxIterations + 1 && (status == Running ==> n <= cfg.maxIterations)
        invariant messages == g.produced && sent == Requests(g.sent) && |sent| + asked == g.completions
        invariant Costed(tracker, g)
        decreases status == Running, cfg.maxIterations - n
      {
        DrivenOn(start, script, n);
        var inp := script(n);
        var more, wire, summaries;
        current, more, status, wire, summaries := TakeTurn(s, tracker, current, n, inp, g);
        g := Step(cfg, g, inp);
        n := n + 1;
        messages := messages + more;
        sent := sent + wire;
        asked := asked + summaries;
      }
    }

    /** What a run has to show for the answers it heard: the assistant's messages are those
        answers, each once and in order, the tokens are what they cost, and if it completed
        its last message is the last of them, in which nothing is called. */
    ghost predicate Concludes(start: RunState, script: nat -> Input, n: nat, status: Status, messages: seq<Message>,
                              tokens: int)
    {
      Plausible(start.gauge)
      && var heard := Heard(cfg, start, Prefix(script, n));
         var answers := AnswersIn(heard);
         && Spoken(messages) == answers && tokens == Bill(heard)
         && (status == Finished(Complete) ==>
               && answers != [] && messages != [] && messages[|messages| - 1] == answers[|answers| - 1]
               && messages[|messages| - 1].toolCalls == [])
    }

    lemma RunConcludes(start: RunState, script: nat -> Input, n: nat)
      requires Plausible(start.gauge) && start.status == Running && start.produced == [] && start.tokens == 0
      ensures var end := Run(cfg, start, Prefix(script, n));
              Concludes(start, script, n, end.status, end.produced, end.tokens)
    {
      var inputs := Prefix(script, n);
      AnswersAreProduced(cfg, start, inputs);
      assert Spoken([]) + AnswersIn(Heard(cfg, start, inputs)) == AnswersIn(Heard(cfg, start, inputs));
      if Run(cfg, start, inputs).status == Finished(Complete) { CompletionIsTheLastAnswer(cfg, start, inputs); }
      hide Run, Heard, AnswersIn, Bill, Prefix;
    }

    /** A whole request.  The script says what the surroundings do in each turn; n is the
        number of turns begun.  What was sent, how many summaries were asked for, what the run
        produced and cost, and what it left in the session and the estimator, are what the
        machine says. */
    method RunWithEvents(s: Session, prompt: string, request: seq<Message>, script: nat -> Input)
      returns (status: Status, messages: seq<Message>, tokens: int, sent: seq<seq<Message>>, asked: nat, n: nat)
      requires Valid() && s.Valid() && s.host == cfg.host && cfg.maxIterations > 0
      requires compactor != null ==> Plausible(compactor.est.View())
      modifies s`files, s`turn, s.ledger, if compactor == null then {} else {compactor.est}
      ensures WithoutSystem(request) == [] ==>
                && status == Errored && messages == [] && sent == [] && asked == 0 && s.View() == old(s.View())
                && (compactor != null ==> compactor.est.View() == old(compactor.est.View()))
      ensures WithoutSystem(request) != [] ==>
                var gauge := if compactor == null then FRESH else old(compactor.est.View());
                var end := Run(cfg, Start(old(s.View()), gauge, prompt, request), Prefix(script, n));
                && status == end.status != Running && s.View() == end.session
                && messages == end.produced && tokens == end.tokens
                && sent == Requests(end.sent) && |sent| + asked == end.completions
                && (compactor != null ==> compactor.est.View() == end.gauge)
      ensures WithoutSystem(request) != [] ==>
                var gauge := if compactor == null then FRESH else old(compactor.est.View());
                Concludes(Start(old(s.View()), gauge, prompt, request), script, n, status, messages, tokens)
      ensures n <= cfg.maxIterations + 1 && |sent| <= 2 * cfg.maxIterations && |sent| + asked <= 4 * cfg.maxIterations
    {
      var conversation := WithoutSystem(request);
      if conversation == [] { return Errored, [], 0, [], 0, 0; }
      var tracker := new Tracker(cfg.maxIterations, cfg.maxTokens);
      var history := [Plain(System, prompt)] + conversation;
      ghost var start := Start(s.View(), if compactor == null then FRESH else compactor.est.View(), prompt, request);
      hide Run;
      status, messages, sent, asked, n := Drive(s, tracker, history, script, start);
      tokens := tracker.tokens;
      Affords(start, script, n);
      RunConcludes(start, script, n);
    }
  }
}
