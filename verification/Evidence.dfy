/** The evidence invariant: whatever the ledger still vouches for, the conversation still
    shows.  Its consequence is that no run overwrites bytes the model was not shown. */
module Evidence {
  import opened Wrappers
  import opened Messages
  import opened Ledgers
  import opened FileTools
  import opened Estimators
  import opened Compaction
  import opened AgentRun
  import opened Sightings
  import opened LostUpdates

  /** The tool message with this id and this very text is in the history. */
  ghost predicate ShownIn(h: seq<Message>, id: string, text: string) {
    exists i :: 0 <= i < |h| && h[i].role == Tool && h[i].toolCallID == id && h[i].content == Content.Text(text)
  }

  /** An observation is backed: the call that last observed the path is in the history
      and so, unabridged, is its result, which showed the bytes the digest stands for. */
  ghost predicate Backed(host: Host, h: seq<Message>, p: string, obs: Observation, seen: Witnesses) {
    && p in seen && p != ""
    && obs.digest == host.sha(seen[p].bytes)
    && HasCall(h, seen[p].callId, p)
    && ShownIn(h, seen[p].callId, seen[p].text)
  }

  ghost predicate Evident(host: Host, h: seq<Message>, es: Entries, seen: Witnesses) {
    forall p | Claims(es, p) :: Backed(host, h, p, es[p], seen)
  }

  /** Every live claim was made before this turn. */
  ghost predicate Earlier(es: Entries, turn: int) {
    forall p | Claims(es, p) :: es[p].turn < turn
  }

  /** A call that may put a file in the ledger. */
  predicate Observes(call: ToolCall) {
    call.invocation.Read? || call.invocation.Edit? || call.invocation.Write?
  }

  /** The path of such a call is already in the form the ledger uses, or outside the jail. */
  ghost predicate NormalPaths(host: Host, calls: seq<ToolCall>) {
    forall k | 0 <= k < |calls| && Observes(calls[k]) ::
      host.rel(ArgPath(calls[k])) == None || host.rel(ArgPath(calls[k])) == Some(ArgPath(calls[k]))
  }

  ghost predicate Invariant(host: Host, s: RunState) {
    && UniqueIds(s.history)
    && Evident(host, s.history, s.session.entries, s.seen)
    && Earlier(s.session.entries, s.turnCounter + 1)
    && forall r | 0 <= r < |s.sent| :: Evident(host, s.sent[r].messages, s.sent[r].entries, s.sent[r].seen)
  }

  /** What the invariant asks of one answer: ids the history does not have yet, and
      normalised paths where files are read or written. */
  ghost predicate GoodAnswer(cfg: Config, s: RunState, inp: Input)
    requires s.gauge.ratio > 0.0
  {
    Halted(cfg, s, inp).None? ==>
      var (s1, reply) := Asked(cfg, Prepared(cfg, s, inp), inp);
      reply.Answer? ==>
        FreshCalls(s1.history, reply.assistant.toolCalls) && NormalPaths(cfg.host, reply.assistant.toolCalls)
  }

  ghost predicate GoodInputs(cfg: Config, s: RunState, inputs: seq<Input>)
    requires Plausible(s.gauge)
    decreases inputs
  {
    inputs == [] || s.status != Running ||
    (StepKeepsGauge(cfg, s, inputs[0]);
     GoodAnswer(cfg, s, inputs[0]) && GoodInputs(cfg, Step(cfg, s, inputs[0]), inputs[1..]))
  }

  // ---- Compaction ----

  lemma HasCallByShape(a: seq<Message>, b: seq<Message>, id: string, p: string)
    requires SameShape(a, b) && HasCall(a, id, p)
    ensures HasCall(b, id, p)
  {
    var i, k :| 0 <= i < |a| && 0 <= k < |a[i].toolCalls| && a[i].toolCalls[k].id == id
      && ArgPath(a[i].toolCalls[k]) == p;
    assert b[i].toolCalls == a[i].toolCalls;
  }

  lemma UniqueByShape(a: seq<Message>, b: seq<Message>)
    requires SameShape(a, b) && UniqueIds(a)
    ensures UniqueIds(b)
  {
  }

  /** Dropping result bodies: each path that loses its evidence loses its standing. */
  lemma PruningKeepsEvidence(host: Host, h: seq<Message>, es: Entries, seen: Witnesses, from: nat)
    requires UniqueIds(h) && Evident(host, h, es, seen)
    ensures Evident(host, Pruned(h, from), Staled(es, PrunedPaths(h, from)), seen)
  {
    var out, es' := Pruned(h, from), Staled(es, PrunedPaths(h, from));
    PrunedShape(h, from);
    forall p | Claims(es', p) ensures Backed(host, out, p, es'[p], seen) {
      assert Claims(es, p);
      assert p !in PrunedPaths(h, from) && es'[p] == es[p] && Backed(host, h, p, es[p], seen);
      var w := seen[p];
      var i :| 0 <= i < |h| && h[i].role == Tool && h[i].toolCallID == w.callId && h[i].content == Content.Text(w.text);
      ReadPathsExact(h, w.callId, p);
      if out[i] != h[i] { PruningReportsPath(h, from, i); }
      assert out[i] == h[i];
      HasCallByShape(h, out, w.callId, p);
    }
  }

  /** After a summary nothing observed in an earlier turn counts any more. */
  lemma SummaryLeavesNoClaims(host: Host, h: seq<Message>, es: Entries, seen: Witnesses, turn: int)
    requires Earlier(es, turn)
    ensures Evident(host, h, StaledBefore(es, turn), seen)
  {
    forall p ensures !Claims(StaledBefore(es, turn), p) {
      assert Claims(StaledBefore(es, turn), p) ==> Claims(es, p);
    }
  }

  /** Messages taken from a history in increasing order, with a gap, keep ids unique. */
  lemma SummaryKeepsUniqueIds(h: seq<Message>, from: nat, reply: SummaryReply)
    requires UniqueIds(h) && Summarized(h, from, reply).Some?
    ensures UniqueIds(Summarized(h, from, reply).value)
  {
    var n := HeadLength(h);
    var out := Summarized(h, from, reply).value;
    forall i, k, i', k' |
      && 0 <= i < |out| && 0 <= k < |out[i].toolCalls|
      && 0 <= i' < |out| && 0 <= k' < |out[i'].toolCalls|
      && out[i].toolCalls[k].id == out[i'].toolCalls[k'].id
      ensures i == i' && k == k'
    {
      assert i != n && i' != n;
      var a := if i < n then i else from + (i - n - 1);
      var a' := if i' < n then i' else from + (i' - n - 1);
      assert out[i] == h[a] && out[i'] == h[a'];
    }
  }

  lemma FewerClaims(host: Host, h: seq<Message>, es: Entries, seen: Witnesses, c: Compacted, turn: int)
    requires Evident(host, h, es, seen)
    ensures Evident(host, h, Settle(es, c, turn), seen)
  {
    forall p | Claims(Settle(es, c, turn), p) ensures Backed(host, h, p, Settle(es, c, turn)[p], seen) {
      assert Claims(es, p) && Settle(es, c, turn)[p] == es[p];
    }
  }

  lemma ForceKeepsEvidence(host: Host, g: Gauge, st: Settings, h: seq<Message>, toolBytes: nat, reply: SummaryReply,
                           es: Entries, seen: Witnesses, turn: int)
    requires g.ratio > 0.0 && UniqueIds(h) && Evident(host, h, es, seen)
    requires Earlier(es, turn)
    ensures var c := Force(g, st, h, toolBytes, reply);
            UniqueIds(c.messages) && Evident(host, c.messages, Settle(es, c, turn), seen)
  {
    var from := RetainIndex(g, st, h);
    var pruned := Pruned(h, from);
    PrunedShape(h, from);
    UniqueByShape(h, pruned);
    var c := Force(g, st, h, toolBytes, reply);
    if c.droppedAll {
      SummaryKeepsUniqueIds(pruned, from, reply);
      SummaryLeavesNoClaims(host, c.messages, es, seen, turn);
    } else {
      PruningKeepsEvidence(host, h, es, seen, from);
    }
  }

  lemma ChosenKeepsEvidence(cfg: Config, s: RunState, reply: SummaryReply, force: bool)
    requires s.gauge.ratio > 0.0 && UniqueIds(s.history)
    requires Evident(cfg.host, s.history, s.session.entries, s.seen)
    requires Earlier(s.session.entries, s.turnCounter)
    ensures var c := Chosen(cfg, s, reply, force);
            UniqueIds(c.messages) && Evident(cfg.host, c.messages, Settle(s.session.entries, c, s.turnCounter), s.seen)
  {
    if cfg.compactor.Some? {
      ForceKeepsEvidence(cfg.host, s.gauge, cfg.compactor.value, s.history, cfg.toolBytes, reply,
                         s.session.entries, s.seen, s.turnCounter);
    }
  }

  /** Loop.compact, in either of its uses, keeps the evidence invariant, both for the
      messages it returns and for those it was given. */
  lemma CompactionKeepsEvidence(cfg: Config, s: RunState, reply: SummaryReply, force: bool)
    requires s.gauge.ratio > 0.0 && UniqueIds(s.history)
    requires Evident(cfg.host, s.history, s.session.entries, s.seen)
    requires Earlier(s.session.entries, s.turnCounter)
    ensures var c := CompactNow(cfg, s, reply, force);
            && UniqueIds(c.messages) && Evident(cfg.host, c.messages, c.entries, s.seen)
            && Earlier(c.entries, s.turnCounter)
            && Evident(cfg.host, s.history, c.entries, s.seen)
  {
    var c := Chosen(cfg, s, reply, force);
    ChosenKeepsEvidence(cfg, s, reply, force);
    FewerClaims(cfg.host, s.history, s.session.entries, s.seen, c, s.turnCounter);
    SettleStaysEarlier(s.session.entries, c, s.turnCounter);
    hide Settle, Evident, Earlier, UniqueIds, Chosen, AskedForSummary;
  }

  lemma SettleStaysEarlier(es: Entries, c: Compacted, turn: int)
    requires Earlier(es, turn)
    ensures Earlier(Settle(es, c, turn), turn)
  {
    assert forall p | Claims(Settle(es, c, turn), p) :: Claims(es, p) && Settle(es, c, turn)[p] == es[p];
  }

  // ---- One turn of tool calls ----

  /** A reply that reports bytes reports them for the path its call named. */
  ghost predicate Fits(host: Host, call: ToolCall, reply: Reply) {
    Observed(reply).Some? ==>
      Observes(call) && ArgPath(call) != "" && host.rel(ArgPath(call)) == Some(Observed(reply).value.0)
  }

  lemma ExecuteFits(host: Host, s: State, call: ToolCall, w: World)
    ensures Fits(host, call, Execute(host, s, call, w).reply)
  {
  }

  lemma {:induction false} RunFits(host: Host, s: State, jobs: seq<Job>, k: nat)
    requires k < |jobs|
    ensures Fits(host, jobs[k].call, RunInOrder(host, s, jobs).replies[k])
    decreases jobs
  {
    var o := Execute(host, s, jobs[0].call, jobs[0].world);
    ExecuteFits(host, s, jobs[0].call, jobs[0].world);
    if k > 0 { RunFits(host, o.after, jobs[1..], k - 1); }
  }

  lemma BackedExtends(host: Host, h: seq<Message>, more: seq<Message>, p: string, obs: Observation, seen: Witnesses,
                      seen': Witnesses)
    requires Backed(host, h, p, obs, seen) && p in seen' && seen'[p] == seen[p]
    ensures Backed(host, h + more, p, obs, seen')
  {
    var w, g := seen[p], h + more;
    var i :| 0 <= i < |h| && h[i].role == Tool && h[i].toolCallID == w.callId && h[i].content == Content.Text(w.text);
    assert g[i] == h[i];
    var j, k :| 0 <= j < |h| && 0 <= k < |h[j].toolCalls| && h[j].toolCalls[k].id == w.callId
      && ArgPath(h[j].toolCalls[k]) == p;
    assert g[j] == h[j];
  }

  /** The result of call k, once it is in the history, backs what it showed. */
  lemma ResultBacks(host: Host, h: seq<Message>, assistant: Message, replies: seq<Reply>, k: nat,
                    p: string, obs: Observation, seen: Witnesses)
    requires |assistant.toolCalls| == |replies| && k < |replies|
    requires NormalPaths(host, assistant.toolCalls) && Fits(host, assistant.toolCalls[k], replies[k])
    requires Observed(replies[k]).Some? && Observed(replies[k]).value.0 == p
    requires p in seen
    requires seen[p] == Witness(assistant.toolCalls[k].id, Observed(replies[k]).value.1, ResultText(host, replies[k]))
    requires obs.digest == host.sha(seen[p].bytes)
    ensures Backed(host, h + ([assistant] + ResultMessages(host, assistant.toolCalls, replies)), p, obs, seen)
  {
    var results := ResultMessages(host, assistant.toolCalls, replies);
    var g := h + ([assistant] + results);
    var c := assistant.toolCalls[k];
    assert ArgPath(c) == p;
    assert g[|h|] == assistant;
    assert g[|h|].toolCalls[k] == c;
    assert g[|h| + 1 + k] == results[k];
  }

  lemma TurnKeepsEvidence(host: Host, h: seq<Message>, st: State, seen: Witnesses, assistant: Message,
                          worlds: nat -> World)
    requires Evident(host, h, st.entries, seen) && NormalPaths(host, assistant.toolCalls)
    ensures var t := RunInOrder(host, st, Jobs(assistant.toolCalls, worlds));
            Evident(host, h + ([assistant] + ResultMessages(host, assistant.toolCalls, t.replies)), t.after.entries,
                    SeeAll(host, seen, assistant.toolCalls, t.replies))
  {
    var calls := assistant.toolCalls;
    var jobs := Jobs(calls, worlds);
    var t := RunInOrder(host, st, jobs);
    var more := [assistant] + ResultMessages(host, calls, t.replies);
    var es', seen' := t.after.entries, SeeAll(host, seen, calls, t.replies);
    var raw := Replied(host, st, jobs);
    LedgerFollowsReplies(host, st, jobs);
    RunShowsReplied(host, st, jobs);
    ShowSameSeeAll(host, seen, calls, raw, t.replies);
    forall p | Claims(es', p) ensures Backed(host, h + more, p, es'[p], seen') {
      TurnIsTraced(host, st.entries, seen, calls, raw, st.turn, p);
      if k :| 0 <= k < |raw| && Left(host, es', seen', calls, raw, st.turn, p, k) {
        RunFits(host, st, jobs, k);
        ResultBacks(host, h, assistant, t.replies, k, p, es'[p], seen');
      } else {
        assert Claims(st.entries, p);
        assert Backed(host, h, p, st.entries[p], seen);
        BackedExtends(host, h, more, p, es'[p], seen, seen');
      }
    }
  }

  lemma FreshCallsStayUnique(h: seq<Message>, assistant: Message, results: seq<Message>)
    requires UniqueIds(h) && FreshCalls(h, assistant.toolCalls)
    requires forall k | 0 <= k < |results| :: results[k].toolCalls == []
    ensures UniqueIds(h + ([assistant] + results))
  {
    var g := h + ([assistant] + results);
    assert forall i | 0 <= i < |g| ::
      g[i] == if i < |h| then h[i] else if i == |h| then assistant else results[i - |h| - 1];
    forall i, k, i', k' |
      && 0 <= i < |g| && 0 <= k < |g[i].toolCalls|
      && 0 <= i' < |g| && 0 <= k' < |g[i'].toolCalls|
      && g[i].toolCalls[k].id == g[i'].toolCalls[k'].id
      ensures i == i' && k == k'
    {
      assert i <= |h| && i' <= |h|;
    }
  }

  lemma {:induction false} NotedTurns(sha: Hash, es: Entries, replies: seq<Reply>, turn: int)
    requires Earlier(es, turn + 1)
    ensures Earlier(NotedAll(sha, es, replies, turn), turn + 1)
    decreases replies
  {
    if replies != [] {
      var es1 := Noted(sha, es, replies[0], turn);
      forall p | Claims(es1, p) ensures es1[p].turn < turn + 1 {
        assert es1[p].turn == turn || (Claims(es, p) && es1[p] == es[p]);
      }
      NotedTurns(sha, es1, replies[1..], turn);
    }
  }

  // ---- Steps and runs ----

  ghost predicate Ready(host: Host, s: RunState) {
    && Invariant(host, s)
    && Earlier(s.session.entries, s.turnCounter)
    && s.session.turn == s.turnCounter
  }

  lemma PreparedIsReady(cfg: Config, s: RunState, inp: Input)
    requires s.gauge.ratio > 0.0 && Invariant(cfg.host, s)
    ensures Ready(cfg.host, Prepared(cfg, s, inp))
  {
    hide CompactNow;
    CompactionKeepsEvidence(cfg, NextTurn(s), inp.before, false);
  }

  lemma AskedIsReady(cfg: Config, s: RunState, inp: Input)
    requires s.gauge.ratio > 0.0 && Ready(cfg.host, s)
    ensures Ready(cfg.host, Asked(cfg, s, inp).0)
  {
    hide CompactNow;
    CompactionKeepsEvidence(cfg, SendNow(s), inp.recovery, true);
  }

  lemma ActedKeepsInvariant(cfg: Config, s: RunState, answer: Message, usage: Option<Usage>, inp: Input)
    requires Ready(cfg.host, s)
    requires FreshCalls(s.history, answer.toolCalls) && NormalPaths(cfg.host, answer.toolCalls)
    ensures Invariant(cfg.host, Acted(cfg, s, answer, usage, inp))
  {
    hide Execute, Verdicts, Plan, OverwritesOf;
    var assistant := answer.(role := Assistant);
    var jobs := Jobs(assistant.toolCalls, inp.worlds);
    var t := RunInOrder(cfg.host, s.session, jobs);
    var results := ResultMessages(cfg.host, assistant.toolCalls, t.replies);
    if assistant.toolCalls == [] {
      assert [assistant] + [] == [assistant];
      assert results == [] && t.after == s.session;
    }
    FreshCallsStayUnique(s.history, assistant, results);
    TurnKeepsEvidence(cfg.host, s.history, s.session, s.seen, assistant, inp.worlds);
    LedgerFollowsReplies(cfg.host, s.session, jobs);
    NotedTurns(cfg.host.sha, s.session.entries, Replied(cfg.host, s.session, jobs), s.turnCounter);
  }

  /** The rest of a turn whose compaction is done. */
  lemma TurnKeepsInvariant(cfg: Config, s: RunState, inp: Input)
    requires Plausible(s.gauge) && Halted(cfg, s, inp).None?
    requires Ready(cfg.host, Prepared(cfg, s, inp)) && GoodAnswer(cfg, s, inp)
    ensures Invariant(cfg.host, Step(cfg, s, inp))
  {
    hide Prepared, Asked, Acted;
    var s1 := Prepared(cfg, s, inp);
    AskedIsReady(cfg, s1, inp);
    var (s2, reply) := Asked(cfg, s1, inp);
    if reply.Answer? { ActedKeepsInvariant(cfg, s2, reply.assistant, reply.usage, inp); }
  }

  lemma StepKeepsInvariant(cfg: Config, s: RunState, inp: Input)
    requires Plausible(s.gauge) && Invariant(cfg.host, s) && GoodAnswer(cfg, s, inp)
    ensures Invariant(cfg.host, Step(cfg, s, inp))
  {
    if Halted(cfg, s, inp).None? {
      PreparedIsReady(cfg, s, inp);
      TurnKeepsInvariant(cfg, s, inp);
    }
  }

  /** Over any run with fresh call ids and normalised paths, at every request the ledger
      vouches only for what the request still shows. */
  lemma {:induction false} RunKeepsInvariant(cfg: Config, s: RunState, inputs: seq<Input>)
    requires Plausible(s.gauge) && Invariant(cfg.host, s) && GoodInputs(cfg, s, inputs)
    ensures Invariant(cfg.host, Run(cfg, s, inputs))
    decreases inputs
  {
    if inputs != [] && s.status == Running {
      StepKeepsGauge(cfg, s, inputs[0]);
      StepKeepsInvariant(cfg, s, inputs[0]);
      RunKeepsInvariant(cfg, Step(cfg, s, inputs[0]), inputs[1..]);
    }
  }

  // ---- Overwrites ----

  /** The bytes an overwrite destroys were shown by an earlier call of the same turn, or
      else in a tool result that stood unabridged in the request the model answered. */
  ghost predicate Justified(host: Host, o: Overwrite, sent: seq<Sent>) {
    && Faithful(host, o, sent)
    && (LastSeen(o.earlier, o.path) == None ==>
          var r := sent[o.request];
          ShownIn(r.messages, r.seen[o.path].callId, r.seen[o.path].text))
  }

  /** With evidence at every request, no overwrite is of bytes the model could not see. */
  lemma RunIsJustified(cfg: Config, s: RunState, inputs: seq<Input>)
    requires Plausible(s.gauge) && Invariant(cfg.host, s) && Accounted(cfg.host, s) && GoodInputs(cfg, s, inputs)
    ensures var t := Run(cfg, s, inputs);
            forall o | o in t.overwrites :: Justified(cfg.host, o, t.sent)
  {
    RunKeepsInvariant(cfg, s, inputs);
    RunNeverOverwritesBlindly(cfg, s, inputs);
    var t := Run(cfg, s, inputs);
    forall o | o in t.overwrites ensures Justified(cfg.host, o, t.sent) {
      if LastSeen(o.earlier, o.path) == None {
        var r := t.sent[o.request];
        assert Backed(cfg.host, r.messages, o.path, r.entries[o.path], r.seen);
      }
    }
  }

  // ---- Which requests of a session have evidence ----

  ghost predicate NoClaims(es: Entries) {
    forall p :: !Claims(es, p)
  }

  ghost predicate AllEvident(host: Host, s: RunState) {
    forall r | 0 <= r < |s.sent| :: Evident(host, s.sent[r].messages, s.sent[r].entries, s.sent[r].seen)
  }

  lemma StartIsUnique(session: State, gauge: Gauge, prompt: string, request: seq<Message>)
    requires UniqueIds(WithoutSystem(request))
    ensures UniqueIds(Start(session, gauge, prompt, request).history)
  {
    var h, conversation := Start(session, gauge, prompt, request).history, WithoutSystem(request);
    forall i, k, i', k' |
      && 0 <= i < |h| && 0 <= k < |h[i].toolCalls|
      && 0 <= i' < |h| && 0 <= k' < |h[i'].toolCalls|
      && h[i].toolCalls[k].id == h[i'].toolCalls[k'].id
      ensures i == i' && k == k'
    {
      assert i > 0 && i' > 0;
      assert h[i] == conversation[i - 1] && h[i'] == conversation[i' - 1];
    }
  }

  /** A request of any session, new or not, whose ledger makes no live claim: every request
      sent has evidence and every overwrite is justified, whatever the conversation and
      whatever was shown before. */
  lemma SettledSessionRuns(cfg: Config, session: State, seen: Witnesses, gauge: Gauge, prompt: string,
                           request: seq<Message>, inputs: seq<Input>)
    requires Plausible(gauge) && UniqueIds(WithoutSystem(request)) && NoClaims(session.entries)
    requires GoodInputs(cfg, Resumed(session, seen, gauge, prompt, request), inputs)
    ensures var s := Run(cfg, Resumed(session, seen, gauge, prompt, request), inputs);
            AllEvident(cfg.host, s) && forall o | o in s.overwrites :: Justified(cfg.host, o, s.sent)
  {
    StartIsUnique(session, gauge, prompt, request);
    var start := Resumed(session, seen, gauge, prompt, request);
    RunKeepsInvariant(cfg, start, inputs);
    RunIsJustified(cfg, start, inputs);
  }
}
