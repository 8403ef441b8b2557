/** No lost update: over every run, and over every session, the bytes an edit or a write
    destroys are those the path was last shown to hold.  Nothing is asked of the calls:
    ids may repeat and paths may be spelled in any way the jail accepts. */
module LostUpdates {
  import opened Wrappers
  import opened Messages
  import opened Ledgers
  import opened FileTools
  import opened Estimators
  import opened Compaction
  import opened AgentRun
  import opened Sightings

  /** Every live claim is about the bytes the path was last shown to hold. */
  ghost predicate Tied(host: Host, es: Entries, seen: Witnesses) {
    forall p | Claims(es, p) :: p in seen && es[p].digest == host.sha(seen[p].bytes)
  }

  /** The bytes an overwrite destroys are, up to their digest, those the path was last
      shown to hold: by an earlier call of the same turn, or else before the request the
      model answered, at which the ledger still vouched for them. */
  ghost predicate Faithful(host: Host, o: Overwrite, sent: seq<Sent>) {
    && 0 <= o.request < |sent|
    && match LastSeen(o.earlier, o.path)
       case Some(b) => host.sha(b) == host.sha(o.destroyed)
       case None =>
         var r := sent[o.request];
         Claims(r.entries, o.path) && o.path in r.seen && host.sha(r.seen[o.path].bytes) == host.sha(o.destroyed)
  }

  /** A state of a run in which the ledger, the requests sent and the overwrites made are
      all accounted for. */
  ghost predicate Accounted(host: Host, s: RunState) {
    && Tied(host, s.session.entries, s.seen)
    && (forall r | 0 <= r < |s.sent| :: Tied(host, s.sent[r].entries, s.sent[r].seen))
    && forall o | o in s.overwrites :: Faithful(host, o, s.sent)
  }

  // ---- One turn ----

  lemma TurnStaysTied(host: Host, st: State, seen: Witnesses, calls: seq<ToolCall>, jobs: seq<Job>)
    requires |calls| == |jobs| && Tied(host, st.entries, seen)
    ensures var t := RunInOrder(host, st, jobs);
            Tied(host, t.after.entries, SeeAll(host, seen, calls, t.replies))
  {
    var t, raw := RunInOrder(host, st, jobs), Replied(host, st, jobs);
    LedgerFollowsReplies(host, st, jobs);
    RunShowsReplied(host, st, jobs);
    ShowSameSeeAll(host, seen, calls, raw, t.replies);
    forall p | Claims(t.after.entries, p)
      ensures var seen' := SeeAll(host, seen, calls, t.replies);
              p in seen' && t.after.entries[p].digest == host.sha(seen'[p].bytes)
    {
      TurnIsTraced(host, st.entries, seen, calls, raw, st.turn, p);
    }
  }

  lemma OneOverwriteFaithful(host: Host, s: State, call: ToolCall, request: nat, sent: seq<Sent>,
                             calls: seq<ToolCall>, raw: seq<Reply>, earlier: seq<Reply>)
    requires |calls| == |raw| && ShowSame(raw, earlier) && request < |sent|
    requires Plan(host, s, call).Some? && Plan(host, s, call).value.was.Some?
    requires var r := sent[request];
             Tied(host, r.entries, r.seen) && s.entries == NotedAll(host.sha, r.entries, raw, s.turn)
    ensures var t := Plan(host, s, call).value;
            Faithful(host, Overwrite(request, t.path, t.was.value, earlier), sent)
  {
    var t, r := Plan(host, s, call).value, sent[request];
    OverwriteIsWitnessed(host, s, call);
    TurnIsTraced(host, r.entries, r.seen, calls, raw, s.turn, t.path);
    ShowSameLastSeen(raw, earlier, t.path);
    if LastSeen(earlier, t.path) == None { assert Claims(r.entries, t.path); }
  }

  lemma {:induction false} OverwritesFaithful(host: Host, s: State, jobs: seq<Job>, request: nat, sent: seq<Sent>,
                                              calls: seq<ToolCall>, raw: seq<Reply>, earlier: seq<Reply>)
    requires |calls| == |raw| && ShowSame(raw, earlier) && request < |sent|
    requires var r := sent[request];
             Tied(host, r.entries, r.seen) && s.entries == NotedAll(host.sha, r.entries, raw, s.turn)
    ensures forall o | o in OverwritesOf(host, s, jobs, request, earlier) :: Faithful(host, o, sent)
    decreases jobs
  {
    if jobs != [] {
      var call := jobs[0].call;
      var o, done := Execute(host, s, call, jobs[0].world), Perform(host, s, call, jobs[0].world);
      if Plan(host, s, call).Some? && Plan(host, s, call).value.was.Some? {
        OneOverwriteFaithful(host, s, call, request, sent, calls, raw, earlier);
      }
      PerformNotes(host, s, call, jobs[0].world);
      NotedAllSnoc(host.sha, sent[request].entries, raw, done.reply, s.turn);
      assert Observed(done.reply) == Observed(o.reply);
      OverwritesFaithful(host, o.after, jobs[1..], request, sent, calls + [call], raw + [done.reply],
                         earlier + [o.reply]);
    }
  }

  /** Nothing escapes the record: a call that is not a command and changes what an
      existing file holds has its overwrite listed, with the replies before it. */
  lemma {:induction false} EveryOverwriteIsListed(host: Host, s: State, jobs: seq<Job>, request: int,
                                                  earlier: seq<Reply>, k: nat, p: string, bytes: string)
    requires k < |jobs| && !jobs[k].call.invocation.Bash?
    requires var before := RunInOrder(host, s, jobs[..k]).after;
             var after := Execute(host, before, jobs[k].call, jobs[k].world).after;
             && p in before.files && before.files[p] == File(bytes)
             && (p !in after.files || after.files[p] != before.files[p])
    ensures Overwrite(request, p, bytes, earlier + RunInOrder(host, s, jobs[..k]).replies)
            in OverwritesOf(host, s, jobs, request, earlier)
    decreases jobs
  {
    hide Execute, Plan;
    var o := Execute(host, s, jobs[0].call, jobs[0].world);
    if k == 0 {
      OnlyPlannedWrites(host, s, jobs[0].call, jobs[0].world, p);
      PlanKnowsTheFile(host, s, jobs[0].call, bytes);
      assert earlier + [] == earlier;
    } else {
      assert jobs[..k][1..] == jobs[1..][..k - 1];
      EveryOverwriteIsListed(host, o.after, jobs[1..], request, earlier + [o.reply], k - 1, p, bytes);
      var rest := RunInOrder(host, o.after, jobs[1..][..k - 1]).replies;
      assert earlier + [o.reply] + rest == earlier + ([o.reply] + rest);
    }
  }

  // ---- Steps and runs ----

  lemma CompactionStaysTied(cfg: Config, s: RunState, reply: SummaryReply, force: bool)
    requires s.gauge.ratio > 0.0 && Tied(cfg.host, s.session.entries, s.seen)
    ensures Tied(cfg.host, CompactNow(cfg, s, reply, force).entries, s.seen)
  {
    var es, es' := s.session.entries, CompactNow(cfg, s, reply, force).entries;
    hide Chosen;
    forall p | Claims(es', p) ensures Claims(es, p) && es'[p] == es[p] {
    }
  }

  lemma PreparedStaysAccounted(cfg: Config, s: RunState, inp: Input)
    requires s.gauge.ratio > 0.0 && Accounted(cfg.host, s)
    ensures Accounted(cfg.host, Prepared(cfg, s, inp))
  {
    hide CompactNow;
    CompactionStaysTied(cfg, NextTurn(s), inp.before, false);
  }

  lemma FaithfulLater(host: Host, o: Overwrite, sent: seq<Sent>, later: seq<Sent>)
    requires Faithful(host, o, sent) && sent <= later
    ensures Faithful(host, o, later)
  {
  }

  lemma AskedStaysAccounted(cfg: Config, s: RunState, inp: Input)
    requires s.gauge.ratio > 0.0 && Accounted(cfg.host, s)
    ensures Accounted(cfg.host, Asked(cfg, s, inp).0)
  {
    hide CompactNow;
    CompactionStaysTied(cfg, SendNow(s), inp.recovery, true);
    var t := Asked(cfg, s, inp).0;
    forall o | o in t.overwrites ensures Faithful(cfg.host, o, t.sent) {
      FaithfulLater(cfg.host, o, s.sent, t.sent);
    }
  }

  lemma ActedStaysAccounted(cfg: Config, s: RunState, answer: Message, usage: Option<Usage>, inp: Input)
    requires Accounted(cfg.host, s)
    requires s.sent != [] && s.sent[|s.sent| - 1] == Sent(s.history, s.session.entries, s.seen)
    ensures Accounted(cfg.host, Acted(cfg, s, answer, usage, inp))
  {
    hide Faithful, Tied, RunInOrder, OverwritesOf, SeeAll, Learned;
    var calls := answer.toolCalls;
    var jobs := Jobs(calls, inp.worlds);
    TurnStaysTied(cfg.host, s.session, s.seen, calls, jobs);
    NothingNoted(cfg.host.sha, s.session.entries, s.session.turn);
    OverwritesFaithful(cfg.host, s.session, jobs, |s.sent| - 1, s.sent, [], [], []);
  }

  lemma NothingNoted(sha: Hash, es: Entries, turn: int)
    ensures NotedAll(sha, es, [], turn) == es
  {
  }

  lemma StepStaysAccounted(cfg: Config, s: RunState, inp: Input)
    requires Plausible(s.gauge) && Accounted(cfg.host, s)
    ensures Accounted(cfg.host, Step(cfg, s, inp))
  {
    hide Prepared, Asked, Acted;
    if Halted(cfg, s, inp).None? {
      PreparedStaysAccounted(cfg, s, inp);
      var s1 := Prepared(cfg, s, inp);
      AskedStaysAccounted(cfg, s1, inp);
      var (s2, reply) := Asked(cfg, s1, inp);
      if reply.Answer? { ActedStaysAccounted(cfg, s2, reply.assistant, reply.usage, inp); }
    }
  }

  /** Over any run at all: at every request each live claim is about the bytes last shown,
      and every overwrite destroys the bytes last shown. */
  lemma {:induction false} RunNeverOverwritesBlindly(cfg: Config, s: RunState, inputs: seq<Input>)
    requires Plausible(s.gauge) && Accounted(cfg.host, s)
    ensures Accounted(cfg.host, Run(cfg, s, inputs))
    decreases inputs
  {
    if inputs != [] && s.status == Running {
      StepKeepsGauge(cfg, s, inputs[0]);
      StepStaysAccounted(cfg, s, inputs[0]);
      RunNeverOverwritesBlindly(cfg, Step(cfg, s, inputs[0]), inputs[1..]);
    }
  }

  // ---- Sessions ----

  /** One request of a session, and the files it finds: between requests anything may
      happen to them. */
  datatype Episode = Episode(files: Files, gauge: Gauge, prompt: string, request: seq<Message>, inputs: seq<Input>)

  /** The request is served with the ledger the session has. */
  function Served(cfg: Config, session: State, seen: Witnesses, e: Episode): RunState
    requires Plausible(e.gauge)
  {
    Run(cfg, Resumed(session.(files := e.files), seen, e.gauge, e.prompt, e.request), e.inputs)
  }

  ghost predicate NeverBlind(cfg: Config, session: State, seen: Witnesses, episodes: seq<Episode>)
    requires forall e | e in episodes :: Plausible(e.gauge)
    decreases episodes
  {
    if episodes == [] then true
    else
      assert episodes[0] in episodes;
      var s := Served(cfg, session, seen, episodes[0]);
      && (forall o | o in s.overwrites :: Faithful(cfg.host, o, s.sent))
      && NeverBlind(cfg, s.session, s.seen, episodes[1..])
  }

  /** No session, however many requests it serves and whatever happens to the files in
      between, overwrites an existing file that does not hold what it was last shown to
      hold. */
  lemma {:induction false} SessionNeverOverwritesBlindly(cfg: Config, session: State, seen: Witnesses,
                                                         episodes: seq<Episode>)
    requires forall e | e in episodes :: Plausible(e.gauge)
    requires Tied(cfg.host, session.entries, seen)
    ensures NeverBlind(cfg, session, seen, episodes)
    decreases episodes
  {
    if episodes != [] {
      assert episodes[0] in episodes;
      var e := episodes[0];
      RunNeverOverwritesBlindly(cfg, Resumed(session.(files := e.files), seen, e.gauge, e.prompt, e.request), e.inputs);
      var s := Served(cfg, session, seen, e);
      SessionNeverOverwritesBlindly(cfg, s.session, s.seen, episodes[1..]);
    }
  }

  // ---- Refusal ----

  /** A call that asks to change what p holds. */
  predicate Changes(host: Host, call: ToolCall, p: string) {
    match call.invocation
    case Edit(q, o, n, _) => q != "" && host.rel(q) == Some(p) && o != "" && o != n
    case Write(q, _) => q != "" && host.rel(q) == Some(p)
    case _ => false
  }

  /** The state a turn's calls start from, after any run. */
  function Acting(cfg: Config, s: RunState, inputs: seq<Input>, inp: Input): (RunState, UpstreamReply)
    requires Plausible(s.gauge)
  {
    Asked(cfg, Prepared(cfg, Run(cfg, s, inputs), inp), inp)
  }

  /** After any run, at any call of the next turn: the path holds other bytes than it was
      last shown to hold, or was never shown at all.  Then no edit and no write goes
      through, and neither files nor ledger change. */
  lemma ForeignChangeIsRefused(cfg: Config, s: RunState, inputs: seq<Input>, inp: Input, k: nat, p: string,
                               bytes: string)
    requires Plausible(s.gauge) && Accounted(cfg.host, s)
    requires Acting(cfg, s, inputs, inp).1.Answer? && k < |Acting(cfg, s, inputs, inp).1.assistant.toolCalls|
    requires var (s1, reply) := Acting(cfg, s, inputs, inp);
             var calls := reply.assistant.toolCalls;
             var t := RunInOrder(cfg.host, s1.session, Jobs(calls, inp.worlds)[..k]);
             var shown := SeeAll(cfg.host, s1.seen, calls[..k], t.replies);
             && p in t.after.files && t.after.files[p] == File(bytes) && Changes(cfg.host, calls[k], p)
             && (p in shown ==> cfg.host.sha(shown[p].bytes) != cfg.host.sha(bytes))
    ensures var (s1, reply) := Acting(cfg, s, inputs, inp);
            var calls := reply.assistant.toolCalls;
            var before := RunInOrder(cfg.host, s1.session, Jobs(calls, inp.worlds)[..k]).after;
            var o := Execute(cfg.host, before, calls[k], inp.worlds(k));
            o.after == before && (o.reply.Failed? || o.reply.Denied?)
  {
    RunNeverOverwritesBlindly(cfg, s, inputs);
    PreparedStaysAccounted(cfg, Run(cfg, s, inputs), inp);
    AskedStaysAccounted(cfg, Prepared(cfg, Run(cfg, s, inputs), inp), inp);
    var (s1, reply) := Acting(cfg, s, inputs, inp);
    hide Run, Asked, Prepared, Acting, RunInOrder, SeeAll;
    var calls := reply.assistant.toolCalls;
    var jobs := Jobs(calls, inp.worlds)[..k];
    TurnStaysTied(cfg.host, s1.session, s1.seen, calls[..k], jobs);
    RefusedWhenUntied(cfg.host, RunInOrder(cfg.host, s1.session, jobs).after,
                      SeeAll(cfg.host, s1.seen, calls[..k], RunInOrder(cfg.host, s1.session, jobs).replies),
                      calls[k], inp.worlds(k), p, bytes);
  }

  lemma RefusedWhenUntied(host: Host, s: State, shown: Witnesses, call: ToolCall, w: World, p: string, bytes: string)
    requires Tied(host, s.entries, shown) && Changes(host, call, p)
    requires p in s.files && s.files[p] == File(bytes)
    requires p in shown ==> host.sha(shown[p].bytes) != host.sha(bytes)
    ensures var o := Execute(host, s, call, w);
            o.after == s && (o.reply.Failed? || o.reply.Denied?)
  {
    if w.denied.None? {
      if Claims(s.entries, p) { assert s.entries[p].digest == host.sha(shown[p].bytes); }
      UnwitnessedChangeIsRefused(host, s, call, w, p, bytes);
    }
  }
}
