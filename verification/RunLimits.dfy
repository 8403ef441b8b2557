/** Where the evidence invariant needs its hypotheses: what happens to a session's second
    request, to paths that are not normalised and to call ids used twice. */
module RunLimits {
  import opened Wrappers
  import opened Text
  import opened Messages
  import opened Ledgers
  import opened FileTools
  import opened Estimators
  import opened Compaction
  import opened AgentRun
  import opened Sightings
  import opened Evidence

  // ---- Which claims pruning withdraws ----

  /** Some call with this id names the path, and no call with the id names one later. */
  ghost predicate LastNamed(h: seq<Message>, id: string, path: string) {
    path != "" && exists i, k :: NamesLast(h, id, path, i, k)
  }

  ghost predicate NamesLast(h: seq<Message>, id: string, path: string, i: int, k: int) {
    && 0 <= i < |h| && 0 <= k < |h[i].toolCalls| && h[i].toolCalls[k].id == id && ArgPath(h[i].toolCalls[k]) == path
    && forall i', k' | 0 <= i' < |h| && 0 <= k' < |h[i'].toolCalls| && h[i'].toolCalls[k'].id == id
         && (i' > i || (i' == i && k' > k)) :: ArgPath(h[i'].toolCalls[k']) == ""
  }

  lemma OneIsLast(h: seq<Message>, id: string, a: string, b: string)
    requires LastNamed(h, id, a) && LastNamed(h, id, b)
    ensures a == b
  {
    var i, k :| NamesLast(h, id, a, i, k);
    var i', k' :| NamesLast(h, id, b, i', k');
  }

  /** Where, in one message's calls, an id names a path for the last time. */
  ghost predicate NamesLastIn(calls: seq<ToolCall>, id: string, path: string, k: int) {
    && 0 <= k < |calls| && calls[k].id == id && ArgPath(calls[k]) == path
    && forall k' | k < k' < |calls| && calls[k'].id == id :: ArgPath(calls[k']) == ""
  }

  lemma {:induction false} AddPathsLast(m: map<string, string>, calls: seq<ToolCall>, id: string) returns (k: int)
    requires id in AddPaths(m, calls)
    ensures k < 0 ==> id in m && AddPaths(m, calls)[id] == m[id]
                      && forall k' | 0 <= k' < |calls| && calls[k'].id == id :: ArgPath(calls[k']) == ""
    ensures k >= 0 ==> AddPaths(m, calls)[id] != "" && NamesLastIn(calls, id, AddPaths(m, calls)[id], k)
  {
    k := -1;
    if calls != [] {
      var init, last := calls[..|calls| - 1], calls[|calls| - 1];
      assert forall j | 0 <= j < |init| :: init[j] == calls[j];
      if last.id == id && ArgPath(last) != "" {
        k := |calls| - 1;
      } else {
        k := AddPathsLast(m, init, id);
      }
    }
  }

  lemma {:induction false} ReadPathsLast(h: seq<Message>, id: string)
    requires id in ReadPaths(h)
    ensures LastNamed(h, id, ReadPaths(h)[id])
  {
    var init, last, path := h[..|h| - 1], h[|h| - 1], ReadPaths(h)[id];
    assert forall j | 0 <= j < |init| :: init[j] == h[j];
    var k := AddPathsLast(ReadPaths(init), last.toolCalls, id);
    if k >= 0 {
      assert NamesLast(h, id, path, |h| - 1, k);
    } else {
      ReadPathsLast(init, id);
      var i, j :| NamesLast(init, id, path, i, j);
      assert NamesLast(h, id, path, i, j);
    }
  }

  /** A result is looked up under the path its id named last. */
  lemma ReadPathsIff(h: seq<Message>, id: string, path: string)
    ensures id in ReadPaths(h) && ReadPaths(h)[id] == path <==> LastNamed(h, id, path)
  {
    if id in ReadPaths(h) { ReadPathsLast(h, id); }
    if LastNamed(h, id, path) {
      var i, k :| NamesLast(h, id, path, i, k);
      ReadPathsComplete(h, i, k);
      OneIsLast(h, id, path, ReadPaths(h)[id]);
    }
  }

  lemma {:induction false} LostPathsSound(paths: map<string, string>, msgs: seq<Message>, p: string)
    requires p in LostPaths(paths, msgs)
    ensures exists i :: 0 <= i < |msgs| && Loses(paths, msgs[i], p)
  {
    var init, last := msgs[..|msgs| - 1], msgs[|msgs| - 1];
    if Loses(paths, last, p) {
      assert msgs[|msgs| - 1] == last;
    } else {
      LostPathsSound(paths, init, p);
      var i :| 0 <= i < |init| && Loses(paths, init[i], p);
      assert msgs[i] == init[i];
    }
  }

  ghost predicate Loses(paths: map<string, string>, m: Message, p: string) {
    Prunable(m) && m.toolCallID in paths && paths[m.toolCallID] == p
  }

  /** A large result ahead of the retained tail, answering an id that named p last. */
  ghost predicate Withdraws(h: seq<Message>, from: nat, p: string, i: int) {
    0 <= i < |h| && i < from && Prunable(h[i]) && LastNamed(h, h[i].toolCallID, p)
  }

  /** In any conversation, cut anywhere: pruning leaves a live claim alone exactly unless
      some result it drops answers an id whose last named path is spelled like the claim's
      path. */
  lemma PruningKeepsClaimIff(h: seq<Message>, from: nat, es: Entries, p: string)
    requires Claims(es, p)
    ensures Claims(Staled(es, PrunedPaths(h, from)), p) <==> !exists i :: Withdraws(h, from, p, i)
  {
    var paths, front := ReadPaths(h), Front(h, from);
    assert Claims(Staled(es, PrunedPaths(h, from)), p) <==> p !in PrunedPaths(h, from);
    if p in PrunedPaths(h, from) {
      LostPathsSound(paths, front, p);
      var i :| 0 <= i < |front| && Loses(paths, front[i], p);
      ReadPathsIff(h, h[i].toolCallID, p);
      assert Withdraws(h, from, p, i);
    }
    if i :| Withdraws(h, from, p, i) {
      ReadPathsIff(h, h[i].toolCallID, p);
      assert front[i] == h[i];
      LostPathsComplete(paths, front, i);
    }
  }

  /** With unique ids that is a call spelled p: a result read under any other spelling of
      the path is dropped without withdrawing the claim. */
  lemma PruningKeepsClaimIffUnspelled(h: seq<Message>, from: nat, es: Entries, p: string)
    requires Claims(es, p) && UniqueIds(h) && p != ""
    ensures Claims(Staled(es, PrunedPaths(h, from)), p)
            <==> !exists i :: 0 <= i < |h| && i < from && Prunable(h[i]) && HasCall(h, h[i].toolCallID, p)
  {
    PruningKeepsClaimIff(h, from, es, p);
    forall i | 0 <= i < |h| ensures LastNamed(h, h[i].toolCallID, p) <==> HasCall(h, h[i].toolCallID, p) {
      ReadPathsIff(h, h[i].toolCallID, p);
      if HasCall(h, h[i].toolCallID, p) { ReadPathsExact(h, h[i].toolCallID, p); }
    }
    if i :| Withdraws(h, from, p, i) {
      assert HasCall(h, h[i].toolCallID, p);
    }
    if i :| 0 <= i < |h| && i < from && Prunable(h[i]) && HasCall(h, h[i].toolCallID, p) {
      assert Withdraws(h, from, p, i);
    }
  }

  lemma PathsSnoc(msgs: seq<Message>, m: Message)
    ensures ReadPaths(msgs + [m]) == AddPaths(ReadPaths(msgs), m.toolCalls)
  {
    assert (msgs + [m])[..|msgs|] == msgs;
  }

  lemma PathOfCall(paths: map<string, string>, c: ToolCall)
    requires ArgPath(c) != ""
    ensures AddPaths(paths, [c]) == paths[c.id := ArgPath(c)] && AddPaths(paths, []) == paths
  {
    assert [c][..0] == [];
  }

  lemma PathsOfTwo(a: ToolCall, r: Message, b: ToolCall, q: Message, m: Message, n: Message)
    requires m.toolCalls == [a] && n.toolCalls == [b] && r.toolCalls == [] && q.toolCalls == []
    requires ArgPath(a) != "" && ArgPath(b) != ""
    ensures ReadPaths([m, r]) == map[a.id := ArgPath(a)]
    ensures ReadPaths([m, r, n, q]) == map[a.id := ArgPath(a)][b.id := ArgPath(b)]
  {
    assert [] + [m] == [m] && [m] + [r] == [m, r] && [m, r] + [n] == [m, r, n] && [m, r, n] + [q] == [m, r, n, q];
    PathsSnoc([], m);
    PathsSnoc([m], r);
    PathsSnoc([m, r], n);
    PathsSnoc([m, r, n], q);
    PathOfCall(ReadPaths([]), a);
    PathOfCall(ReadPaths([m, r]), b);
    assert ReadPaths([]) == map[];
  }

  /** The smallest conversation of each kind.  A result read under some spelling takes the
      standing of p away exactly when the spelling is p itself. */
  lemma OneSpelling(call: ToolCall, m: Message, result: Message, es: Entries, p: string)
    requires m.toolCalls == [call] && m.role == Assistant && call.invocation.Read? && ArgPath(call) != ""
    requires result.role == Tool && result.toolCallID == call.id && result.toolCalls == [] && Prunable(result)
    requires Claims(es, p)
    ensures Claims(Staled(es, PrunedPaths([m, result], 2)), p) <==> ArgPath(call) != p
  {
    PathsOfTwo(call, result, call, result, m, m);
    var paths := ReadPaths([m, result]);
    assert [m, result][..1] == [m] && [m][..0] == [];
    assert LostPaths(paths, [m]) == LostPaths(paths, []) + LostPath(paths, m);
    assert PrunedPaths([m, result], 2) == [ArgPath(call)];
  }

  /** Two calls that share an id: pruning the first one's result takes away the standing
      of the second one's path, and of the first one's only if they are the same. */
  lemma OneReusedId(a: ToolCall, m: Message, r: Message, b: ToolCall, n: Message, q: Message, es: Entries)
    requires m.toolCalls == [a] && n.toolCalls == [b] && r.toolCalls == [] && q.toolCalls == []
    requires m.role == Assistant && n.role == Assistant && a.id == b.id && ArgPath(a) != "" && ArgPath(b) != ""
    requires r.role == Tool && r.toolCallID == a.id && Prunable(r)
    requires Claims(es, ArgPath(a))
    ensures Claims(Staled(es, PrunedPaths([m, r, n, q], 2)), ArgPath(a)) <==> ArgPath(a) != ArgPath(b)
  {
    PathsOfTwo(a, r, b, q, m, n);
    var paths := ReadPaths([m, r, n, q]);
    assert [m, r, n, q][..2] == [m, r];
    assert [m, r][..1] == [m] && [m][..0] == [];
    assert LostPaths(paths, [m]) == LostPaths(paths, []) + LostPath(paths, m);
    assert PrunedPaths([m, r, n, q], 2) == [ArgPath(b)];
  }

  // ---- Which claims are left when a turn begins ----

  /** What decides, before a turn, whether its compaction leaves any live claim.  Untouched,
      the conversation leaves the ledger as it is; a summary clears what is older than the
      turn; and pruning clears what a dropped result named. */
  ghost predicate ClearsAhead(cfg: Config, s: RunState, reply: SummaryReply)
    requires s.gauge.ratio > 0.0
  {
    var (h, es) := (s.history, s.session.entries);
    match cfg.compactor
    case None => NoClaims(es)
    case Some(st) =>
      var from := RetainIndex(s.gauge, st, h);
      if st.window <= 0 || |h| < 4 || Estimate(s.gauge, h, cfg.toolBytes) < Limit(st) then NoClaims(es)
      else if Estimate(s.gauge, Pruned(h, from), cfg.toolBytes) >= Limit(st)
              && CanSummarize(h, from) && reply.Summary? && !AllSpace(reply.text) then
        forall p | Claims(es, p) :: es[p].turn < s.turnCounter
      else
        forall p | Claims(es, p) :: exists i :: Withdraws(h, from, p, i)
  }

  lemma PruningClearsIff(h: seq<Message>, from: nat, es: Entries)
    ensures NoClaims(Staled(es, PrunedPaths(h, from)))
            <==> forall p | Claims(es, p) :: exists i :: Withdraws(h, from, p, i)
  {
    hide Withdraws, PrunedPaths;
    var es' := Staled(es, PrunedPaths(h, from));
    forall p ensures Claims(es', p) <==> Claims(es, p) && !exists i :: Withdraws(h, from, p, i) {
      if Claims(es, p) { PruningKeepsClaimIff(h, from, es, p); }
    }
  }

  /** The turn counter restarts with every request while the ledger keeps its turns, so
      a summary clears every claim exactly when no claim carries this turn or a later one. */
  lemma SummaryClearsIff(es: Entries, turn: int)
    ensures NoClaims(StaledBefore(es, turn)) <==> forall p | Claims(es, p) :: es[p].turn < turn
  {
    if p :| Claims(es, p) && es[p].turn >= turn {
      assert Claims(StaledBefore(es, turn), p);
    }
  }

  lemma CompactionClearsIff(cfg: Config, s: RunState, reply: SummaryReply)
    requires s.gauge.ratio > 0.0
    ensures NoClaims(CompactNow(cfg, s, reply, false).entries) <==> ClearsAhead(cfg, s, reply)
  {
    hide RetainIndex, Estimate, Pruned, PrunedPaths, CanSummarize, NoClaims, Withdraws, Limit, Staled, StaledBefore,
         Trim, AskedForSummary, HeadLength;
    if cfg.compactor.Some? {
      var (st, h, es) := (cfg.compactor.value, s.history, s.session.entries);
      var from := RetainIndex(s.gauge, st, h);
      ForceSummarizesIff(s.gauge, st, h, cfg.toolBytes, reply);
      if reply.Summary? { TrimEmpty(reply.text); }
      SummaryClearsIff(es, s.turnCounter);
      PruningClearsIff(h, from, es);
    }
  }

  // ---- A session's later requests ----

  /** What a client has to build a conversation from: instructions, questions, answers. */
  ghost predicate NoResults(h: seq<Message>) {
    forall i | 0 <= i < |h| :: h[i].role != Tool
  }

  /** Without tool results nothing is shown, whatever was shown before. */
  lemma WithoutResultsIff(host: Host, h: seq<Message>, es: Entries, seen: Witnesses)
    requires NoResults(h)
    ensures Evident(host, h, es, seen) <==> NoClaims(es)
  {
    if p :| Claims(es, p) { assert !Backed(host, h, p, es[p], seen); }
  }

  lemma CompactionMakesNoResults(cfg: Config, s: RunState, reply: SummaryReply, force: bool)
    requires s.gauge.ratio > 0.0 && NoResults(s.history)
    ensures NoResults(CompactNow(cfg, s, reply, force).messages)
  {
    hide RetainIndex, Estimate, Limit, AskedForSummary, PrunedPaths, HeadLength, Prunable, Stubbed;
    if cfg.compactor.Some? {
      var from := RetainIndex(s.gauge, cfg.compactor.value, s.history);
      PrunedShape(s.history, from);
      hide Pruned;
    }
  }

  /** At the first request of a run without tool results: it has evidence exactly when the
      compaction ahead of it clears the ledger. */
  lemma FirstRequestIsEvidentIff(cfg: Config, session: State, seen: Witnesses, gauge: Gauge, prompt: string,
                                 request: seq<Message>, inp: Input)
    requires Plausible(gauge) && NoResults(WithoutSystem(request))
    requires Halted(cfg, Resumed(session, seen, gauge, prompt, request), inp).None?
    ensures var start := Resumed(session, seen, gauge, prompt, request);
            var sent := Step(cfg, start, inp).sent;
            && sent != [] && sent[0].entries == Prepared(cfg, start, inp).session.entries
            && (Evident(cfg.host, sent[0].messages, sent[0].entries, sent[0].seen)
                <==> ClearsAhead(cfg, NextTurn(start), inp.before))
  {
    hide Chosen, Acted, CompactNow, Evident, NoClaims, ClearsAhead;
    var start := Resumed(session, seen, gauge, prompt, request);
    var s1 := Prepared(cfg, start, inp);
    assert NextTurn(start).history == [Plain(System, prompt)] + WithoutSystem(request);
    assert NoResults(NextTurn(start).history);
    CompactionMakesNoResults(cfg, NextTurn(start), inp.before, false);
    CompactionClearsIff(cfg, NextTurn(start), inp.before);
    WithoutResultsIff(cfg.host, s1.history, s1.session.entries, s1.seen);
    assert s1.sent == [];
    AskedSendsFirst(cfg, s1, inp);
    var (s2, reply) := Asked(cfg, s1, inp);
    hide Asked, Prepared;
    if reply.Answer? { ActedSendsNothing(cfg, s2, reply.assistant, reply.usage, inp); }
  }

  lemma AskedSendsFirst(cfg: Config, s: RunState, inp: Input)
    requires s.gauge.ratio > 0.0 && s.sent == []
    ensures var t := Asked(cfg, s, inp).0;
            t.sent != [] && t.sent[0] == Sent(s.history, s.session.entries, s.seen)
  {
    hide CompactNow;
  }

  lemma {:induction false} RunExtendsSent(cfg: Config, s: RunState, inputs: seq<Input>)
    requires Plausible(s.gauge)
    ensures s.sent <= Run(cfg, s, inputs).sent
    decreases inputs
  {
    if inputs != [] && s.status == Running {
      StepKeepsGauge(cfg, s, inputs[0]);
      StepExtendsSent(cfg, s, inputs[0]);
      RunExtendsSent(cfg, Step(cfg, s, inputs[0]), inputs[1..]);
    }
  }

  lemma StepExtendsSent(cfg: Config, s: RunState, inp: Input)
    requires Plausible(s.gauge)
    ensures s.sent <= Step(cfg, s, inp).sent
  {
    hide CompactNow, Acted;
    if Halted(cfg, s, inp).None? {
      var (s2, reply) := Asked(cfg, Prepared(cfg, s, inp), inp);
      if reply.Answer? { ActedSendsNothing(cfg, s2, reply.assistant, reply.usage, inp); }
    }
  }

  /** The ledger outlives a request, and a client cannot send back what it was not sent.
      Any run with fresh ids and normal paths, of any request of a session that carries no
      tool results, has evidence at every request exactly when the compaction ahead of its
      first turn clears the ledger.  What earlier requests were shown makes no difference. */
  lemma RunIsEvidentIff(cfg: Config, session: State, seen: Witnesses, gauge: Gauge, prompt: string,
                        request: seq<Message>, inputs: seq<Input>)
    requires Plausible(gauge) && UniqueIds(WithoutSystem(request)) && NoResults(WithoutSystem(request)) && inputs != []
    requires Halted(cfg, Resumed(session, seen, gauge, prompt, request), inputs[0]).None?
    requires GoodInputs(cfg, Resumed(session, seen, gauge, prompt, request), inputs)
    ensures var start := Resumed(session, seen, gauge, prompt, request);
            AllEvident(cfg.host, Run(cfg, start, inputs)) <==> ClearsAhead(cfg, NextTurn(start), inputs[0].before)
  {
    hide ClearsAhead;
    var start := Resumed(session, seen, gauge, prompt, request);
    StepKeepsGauge(cfg, start, inputs[0]);
    FirstRequestIsEvidentIff(cfg, session, seen, gauge, prompt, request, inputs[0]);
    var next := Step(cfg, start, inputs[0]);
    RunExtendsSent(cfg, next, inputs[1..]);
    var end := Run(cfg, next, inputs[1..]);
    assert Run(cfg, start, inputs) == end;
    assert end.sent[0] == next.sent[0];
    if ClearsAhead(cfg, NextTurn(start), inputs[0].before) {
      PreparedStartIsReady(cfg, session, seen, gauge, prompt, request, inputs[0]);
      hide Prepared, Step, Run;
      TurnKeepsInvariant(cfg, start, inputs[0]);
      RunKeepsInvariant(cfg, next, inputs[1..]);
    }
  }

  lemma PreparedStartIsReady(cfg: Config, session: State, seen: Witnesses, gauge: Gauge, prompt: string,
                             request: seq<Message>, inp: Input)
    requires Plausible(gauge) && UniqueIds(WithoutSystem(request))
    requires ClearsAhead(cfg, NextTurn(Resumed(session, seen, gauge, prompt, request)), inp.before)
    ensures Ready(cfg.host, Prepared(cfg, Resumed(session, seen, gauge, prompt, request), inp))
  {
    hide CompactNow, UniqueIds, WithoutSystem, ClearsAhead;
    var start := Resumed(session, seen, gauge, prompt, request);
    StartIsUnique(session, gauge, prompt, request);
    CompactionKeepsUniqueIds(cfg, NextTurn(start), inp.before, false);
    CompactionClearsIff(cfg, NextTurn(start), inp.before);
  }

  lemma CompactionKeepsUniqueIds(cfg: Config, s: RunState, reply: SummaryReply, force: bool)
    requires s.gauge.ratio > 0.0 && UniqueIds(s.history)
    ensures UniqueIds(CompactNow(cfg, s, reply, force).messages)
  {
    var settled := s.(session := s.session.(entries := map[]));
    CompactionKeepsEvidence(cfg, settled, reply, force);
    assert CompactNow(cfg, s, reply, force).messages == CompactNow(cfg, settled, reply, force).messages;
  }

  /** A run of one turn: the user's words, an answer without calls. */
  function Plainest(task: string, answer: Message): (seq<Message>, Input) {
    ([Plain(User, task)],
     Input(false, false, NoSummarizer, Answer(answer, None), NoSummarizer, NoChoices(None), k => Idle(), false))
  }

  function Idle(): World {
    World(None, false, "", "", false, map[], Refuses)
  }

  /** Asked of all runs at once: a session's next request is sure to have evidence all the
      way exactly when the ledger it starts with makes no live claim, whatever was shown
      before and whatever the conversation repeats of it. */
  lemma NextRequestIsSureIff(cfg: Config, session: State, seen: Witnesses, gauge: Gauge, prompt: string)
    requires Plausible(gauge)
    ensures (forall request, inputs ::
               UniqueIds(WithoutSystem(request))
               && GoodInputs(cfg, Resumed(session, seen, gauge, prompt, request), inputs)
               ==> AllEvident(cfg.host, Run(cfg, Resumed(session, seen, gauge, prompt, request), inputs)))
            <==> NoClaims(session.entries)
  {
    if NoClaims(session.entries) {
      forall request, inputs |
        UniqueIds(WithoutSystem(request)) && GoodInputs(cfg, Resumed(session, seen, gauge, prompt, request), inputs)
        ensures AllEvident(cfg.host, Run(cfg, Resumed(session, seen, gauge, prompt, request), inputs))
      {
        SettledSessionRuns(cfg, session, seen, gauge, prompt, request, inputs);
      }
    } else {
      PlainestRunFails(cfg, session, seen, gauge, prompt);
    }
  }

  /** Its failing run: one short request, too short to be compacted, answered at once. */
  lemma PlainestRunFails(cfg: Config, session: State, seen: Witnesses, gauge: Gauge, prompt: string)
    requires Plausible(gauge) && !NoClaims(session.entries)
    ensures var (request, inp) := Plainest("", Plain(Assistant, ""));
            var start := Resumed(session, seen, gauge, prompt, request);
            && UniqueIds(WithoutSystem(request)) && GoodInputs(cfg, start, [inp])
            && !AllEvident(cfg.host, Run(cfg, start, [inp]))
  {
    var (request, inp) := Plainest("", Plain(Assistant, ""));
    var start := Resumed(session, seen, gauge, prompt, request);
    hide *;
    PlainestIsGood(cfg, session, seen, gauge, prompt);
    ShortIsUntouched(cfg, NextTurn(start), inp.before);
    RunIsEvidentIff(cfg, session, seen, gauge, prompt, request, [inp]);
  }

  lemma PlainestIsGood(cfg: Config, session: State, seen: Witnesses, gauge: Gauge, prompt: string)
    requires Plausible(gauge)
    ensures var (request, inp) := Plainest("", Plain(Assistant, ""));
            var start := Resumed(session, seen, gauge, prompt, request);
            && UniqueIds(WithoutSystem(request)) && NoResults(WithoutSystem(request)) && GoodInputs(cfg, start, [inp])
            && Halted(cfg, start, inp).None? && |NextTurn(start).history| < 4
            && gauge.ratio > 0.0 && NextTurn(start).gauge == gauge && NextTurn(start).session.entries == session.entries
  {
    var (request, inp) := Plainest("", Plain(Assistant, ""));
    var start := Resumed(session, seen, gauge, prompt, request);
    assert WithoutSystem(request) == request;
    StepKeepsGauge(cfg, start, inp);
    hide CompactNow, Acted;
  }

  lemma ShortIsUntouched(cfg: Config, s: RunState, reply: SummaryReply)
    requires s.gauge.ratio > 0.0 && |s.history| < 4
    ensures ClearsAhead(cfg, s, reply) <==> NoClaims(s.session.entries)
  {
    hide Estimate, Pruned, RetainIndex, CanSummarize, NoClaims;
  }

  /** Both at once: a file seen in turn 5 of an earlier request.  The first request of the
      next run shows nothing of it, a summary in its first turn would not clear it, and
      an overwrite of it is authorised. */
  lemma SecondRequestIsUnbacked(host: Host, seen: Witnesses, task: Message, gauge: Gauge)
    requires task.role == User && host.rel("a") == Some("a")
    ensures var session := State(map["a" := File("x")], map["a" := Seen(host.sha, "a", "x", 5)], 5);
            var start := Resumed(session, seen, gauge, "", [task]);
            && !Evident(host, start.history, session.entries, start.seen)
            && Claims(StaledBefore(session.entries, start.turnCounter + 1), "a")
            && Plan(host, session, ToolCall("c", "write", "", Write("a", "y"))).Some?
  {
    var es := map["a" := Seen(host.sha, "a", "x", 5)];
    var start := Resumed(State(map["a" := File("x")], es, 5), seen, gauge, "", [task]);
    assert WithoutSystem([task]) == [task];
    assert Claims(es, "a");
    WithoutResultsIff(host, start.history, es, seen);
  }

  /** A conversation that repeats a call and its result does show what it showed, to those
      who remember which call that was: tool results in a request can be evidence. */
  lemma RepeatedResultIsEvidence(host: Host, bytes: string, text: string, turn: int)
    ensures var call := ToolCall("c", "read", "", Read("a", 0, 0));
            var h := [Plain(System, ""), Plain(Assistant, "").(toolCalls := [call]), ToolMessage("c", text)];
            var es := map["a" := Seen(host.sha, "a", bytes, turn)];
            && Evident(host, h, es, map["a" := Witness("c", bytes, text)]) && !Evident(host, h, es, map[])
  {
    var call := ToolCall("c", "read", "", Read("a", 0, 0));
    var h := [Plain(System, ""), Plain(Assistant, "").(toolCalls := [call]), ToolMessage("c", text)];
    var es := map["a" := Seen(host.sha, "a", bytes, turn)];
    assert h[1].toolCalls[0] == call && h[2].toolCallID == "c";
    assert Claims(es, "a");
  }
}
