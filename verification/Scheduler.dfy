/** Running one turn's tool calls (internal/agent/loop.go, runToolCalls): consecutive
    calls that may overlap run together, up to a limit, and everything else runs alone.
    Whatever the interleaving, the outcome is that of running the calls in order. */
module Scheduler {
  import opened Wrappers
  import opened Messages
  import opened Ledgers
  import opened FileTools
  import opened Sessions

  /** concurrencySafe: the tool exists and says this call may overlap others. */
  predicate Overlaps(call: ToolCall) {
    match call.invocation
    case Read(_, _, _) => true
    case Search(_) => true
    case Unfit(_, tool) => tool == Some(true)
    case _ => false
  }

  /** Those are the reads and searches, and the malformed calls of a tool that could overlap;
      whatever they find, no file changes. */
  lemma OverlapsAreHarmless(host: Host, s: State, call: ToolCall, w: World)
    ensures Overlaps(call) <==>
              call.invocation.Read? || call.invocation.Search?
              || (call.invocation.Unfit? && call.invocation.tool == Some(true))
    ensures Overlaps(call) ==> Execute(host, s, call, w).after.files == s.files
  {
    hide ReadReply, Noted;
  }

  /** The reply of an overlapping call, a function of the files alone. */
  function SafeReply(host: Host, files: Files, job: Job): Reply {
    if job.world.denied.Some? then Denied(job.world.denied.value)
    else
      match job.call.invocation
      case Read(p, offset, limit) => ReadReply(host, files, p, offset, limit)
      case Search(_) => if job.world.finishes then Searched(job.world.found) else Failed(IoError)
      case _ => Failed(InvalidArguments)
  }

  function SafeTold(host: Host, files: Files, job: Job): Reply {
    Told(job.world, SafeReply(host, files, job))
  }

  /** The paths a reply enters in the ledger: one or none. */
  function Touched(reply: Reply): set<string> {
    match reply
    case Shown(p, _, _, _) => {p}
    case Missing(p) => {p}
    case _ => {}
  }

  /** What anyone reading a path would record: it depends on the files, not on who
      reads first. */
  function Sight(sha: Hash, files: Files, p: string, turn: int): Observation {
    if p in files && files[p].File? then Seen(sha, p, files[p].bytes, turn) else SeenAbsent(p, turn)
  }

  function Sights(sha: Hash, files: Files, paths: set<string>, turn: int): Entries {
    map p | p in paths :: Sight(sha, files, p, turn)
  }

  lemma SightsGrow(sha: Hash, files: Files, base: Entries, a: set<string>, b: set<string>, turn: int)
    ensures base + Sights(sha, files, a, turn) + Sights(sha, files, b, turn) == base + Sights(sha, files, a + b, turn)
  {
  }

  lemma SafeNote(host: Host, files: Files, job: Job, es: Entries, turn: int)
    requires Overlaps(job.call)
    ensures var reply := SafeReply(host, files, job);
            && !reply.Edited? && !reply.Written?
            && Noted(host.sha, es, reply, turn) == es + Sights(host.sha, files, Touched(reply), turn)
  {
  }

  lemma SafeExecute(host: Host, s: State, job: Job)
    requires Overlaps(job.call)
    ensures var o, r := Execute(host, s, job.call, job.world), SafeReply(host, s.files, job);
            && o.reply == Told(job.world, r)
            && o.after == s.(entries := Noted(host.sha, s.entries, r, s.turn))
  {
  }

  function Replies(host: Host, files: Files, jobs: seq<Job>): seq<Reply> {
    seq(|jobs|, k requires 0 <= k < |jobs| => SafeReply(host, files, jobs[k]))
  }

  function ToldAll(host: Host, files: Files, jobs: seq<Job>): seq<Reply> {
    seq(|jobs|, k requires 0 <= k < |jobs| => SafeTold(host, files, jobs[k]))
  }

  function AllTouched(replies: seq<Reply>): set<string> {
    set k, p | 0 <= k < |replies| && p in Touched(replies[k]) :: p
  }

  /** Calls that may overlap, run in order, answer from the files they started with and
      add to the ledger the sight of each path one of them read. */
  lemma {:induction false} SafeRun(host: Host, s: State, jobs: seq<Job>)
    requires forall k | 0 <= k < |jobs| :: Overlaps(jobs[k].call)
    ensures var replies := Replies(host, s.files, jobs);
            RunInOrder(host, s, jobs)
            == Turn(s.(entries := s.entries + Sights(host.sha, s.files, AllTouched(replies), s.turn)),
                    ToldAll(host, s.files, jobs))
    decreases jobs
  {
    var replies := Replies(host, s.files, jobs);
    if jobs == [] {
      assert AllTouched(replies) == {};
      assert s.entries + Sights(host.sha, s.files, {}, s.turn) == s.entries;
    } else {
      var r := SafeReply(host, s.files, jobs[0]);
      SafeExecute(host, s, jobs[0]);
      SafeNote(host, s.files, jobs[0], s.entries, s.turn);
      var first := Execute(host, s, jobs[0].call, jobs[0].world).after;
      SafeRun(host, first, jobs[1..]);
      var rest := Replies(host, s.files, jobs[1..]);
      assert replies == [r] + rest;
      assert ToldAll(host, s.files, jobs) == [SafeTold(host, s.files, jobs[0])] + ToldAll(host, s.files, jobs[1..]);
      TouchedCons(r, rest);
      SightsGrow(host.sha, s.files, s.entries, Touched(r), AllTouched(rest), s.turn);
    }
  }

  lemma TouchedCons(r: Reply, rest: seq<Reply>)
    ensures AllTouched([r] + rest) == Touched(r) + AllTouched(rest)
  {
    var all := [r] + rest;
    forall p | p in Touched(r) + AllTouched(rest) ensures p in AllTouched(all) {
      if p in Touched(r) {
        assert all[0] == r;
      } else {
        var k :| 0 <= k < |rest| && p in Touched(rest[k]);
        assert all[k + 1] == rest[k];
      }
    }
  }

  /** One batch: the half-open range of calls started together. */
  datatype Batch = Batch(lo: nat, hi: nat)

  /** The batches tile the calls in order; none is empty or over the limit; a call that
      may not overlap is alone; and a batch stops early only where it must. */
  ghost predicate Tiles(batches: seq<Batch>, jobs: seq<Job>, limit: nat, upTo: nat) {
    && (if batches == [] then upTo == 0 else batches[0].lo == 0 && batches[|batches| - 1].hi == upTo)
    && (forall b | 0 <= b < |batches| - 1 :: batches[b].hi == batches[b + 1].lo)
    && forall b | 0 <= b < |batches| :: Sound(batches[b], jobs, limit)
  }

  ghost predicate Sound(b: Batch, jobs: seq<Job>, limit: nat) {
    && b.lo < b.hi <= |jobs| && b.hi - b.lo <= limit
    && (b.hi - b.lo > 1 ==> forall k | b.lo <= k < b.hi :: Overlaps(jobs[k].call))
    && (Overlaps(jobs[b.lo].call) ==> b.hi - b.lo == limit || b.hi == |jobs| || !Overlaps(jobs[b.hi].call))
  }

  /** The ledger's part of a safe call. */
  method Record(s: Session, reply: Reply)
    requires s.Valid() && !reply.Edited? && !reply.Written?
    modifies s.ledger
    ensures s.ledger.entries == Noted(s.host.sha, old(s.ledger.entries), reply, s.turn)
  {
    match reply {
      case Shown(p, b, _, _) => s.ledger.Observe(p, b, s.turn);
      case Missing(p) => s.ledger.ObserveAbsent(p, s.turn);
      case _ =>
    }
  }

  ghost function TouchedBy(replies: seq<Reply>, done: set<int>): set<string>
    requires forall k | k in done :: 0 <= k < |replies|
  {
    set k, p | k in done && p in Touched(replies[k]) :: p
  }

  lemma TouchedByStep(replies: seq<Reply>, done: set<int>, k: int)
    requires (forall j | j in done :: 0 <= j < |replies|) && 0 <= k < |replies|
    ensures TouchedBy(replies, done + {k}) == TouchedBy(replies, done) + Touched(replies[k])
  {
    var more := TouchedBy(replies, done + {k});
    forall p | p in TouchedBy(replies, done) ensures p in more {
      var j :| j in done && p in Touched(replies[j]);
      assert j in done + {k};
    }
    forall p | p in Touched(replies[k]) ensures p in more {
      assert k in done + {k};
    }
  }

  /** The ledger once the calls in done have recorded, in whatever order. */
  ghost function LedgerAfter(host: Host, start: State, jobs: seq<Job>, done: set<int>): Entries
    requires forall k | k in done :: 0 <= k < |jobs|
  {
    start.entries + Sights(host.sha, start.files, TouchedBy(Replies(host, start.files, jobs), done), start.turn)
  }

  lemma RecordStep(host: Host, start: State, jobs: seq<Job>, done: set<int>, k: int)
    requires (forall j | j in done :: 0 <= j < |jobs|) && 0 <= k < |jobs| && Overlaps(jobs[k].call)
    ensures var reply := SafeReply(host, start.files, jobs[k]);
            && !reply.Edited? && !reply.Written?
            && Noted(host.sha, LedgerAfter(host, start, jobs, done), reply, start.turn)
               == LedgerAfter(host, start, jobs, done + {k})
  {
    var want := Replies(host, start.files, jobs);
    SafeNote(host, start.files, jobs[k], LedgerAfter(host, start, jobs, done), start.turn);
    TouchedByStep(want, done, k);
    SightsGrow(host.sha, start.files, start.entries, TouchedBy(want, done), Touched(want[k]), start.turn);
  }

  /** When every call has recorded, the batch is where running in order would be. */
  lemma BatchIsOrdered(host: Host, start: State, jobs: seq<Job>, done: set<int>)
    requires forall k | 0 <= k < |jobs| :: Overlaps(jobs[k].call)
    requires forall k :: k in done <==> 0 <= k < |jobs|
    ensures RunInOrder(host, start, jobs)
            == Turn(start.(entries := LedgerAfter(host, start, jobs, done)), ToldAll(host, start.files, jobs))
  {
    SafeRun(host, start, jobs);
    var want := Replies(host, start.files, jobs);
    assert TouchedBy(want, done) == AllTouched(want);
  }

  lemma NothingRecorded(host: Host, start: State, jobs: seq<Job>)
    ensures LedgerAfter(host, start, jobs, {}) == start.entries
  {
  }

  /** How far one call of a batch has got. */
  datatype Phase = Waiting | Computed(reply: Reply) | Recorded(reply: Reply) | Stored

  function StepsLeft(phase: Phase): nat {
    match phase
    case Waiting => 3
    case Computed(_) => 2
    case Recorded(_) => 1
    case Stored => 0
  }

  function Remaining(phases: seq<Phase>): nat {
    if phases == [] then 0 else StepsLeft(phases[0]) + Remaining(phases[1..])
  }

  lemma {:induction false} RemainingDrops(phases: seq<Phase>, k: nat, next: Phase)
    requires k < |phases| && StepsLeft(next) < StepsLeft(phases[k])
    ensures Remaining(phases[k := next]) < Remaining(phases)
  {
    if k > 0 {
      RemainingDrops(phases[1..], k - 1, next);
      assert phases[k := next][1..] == phases[1..][k - 1 := next];
    } else {
      assert phases[k := next][1..] == phases[1..];
    }
  }

  /** A call's progress agrees with what it should reply, with the set of calls already
      in the ledger and with what its slot should say. */
  ghost predicate InPhase(phase: Phase, want: Reply, noted: bool, slot: Reply, told: Reply) {
    match phase
    case Waiting => !noted
    case Computed(r) => !noted && r == want
    case Recorded(r) => noted && r == want
    case Stored => noted && slot == told
  }

  function NextPhase(host: Host, files: Files, job: Job, phase: Phase): Phase {
    match phase
    case Waiting => Computed(SafeReply(host, files, job))
    case Computed(r) => Recorded(r)
    case _ => Stored
  }

  /** A call's next step. */
  method TakeStep(s: Session, job: Job, phase: Phase, slots: array<Reply>, k: nat) returns (next: Phase)
    requires s.Valid() && k < slots.Length && phase != Stored
    requires phase.Computed? ==> !phase.reply.Edited? && !phase.reply.Written?
    modifies s.ledger, slots
    ensures next == NextPhase(s.host, s.files, job, phase)
    ensures s.ledger.entries == if phase.Computed? then Noted(s.host.sha, old(s.ledger.entries), phase.reply, s.turn)
                                else old(s.ledger.entries)
    ensures slots[..] == if phase.Recorded? then old(slots[..])[k := Told(job.world, phase.reply)] else old(slots[..])
  {
    hide Noted, SafeReply, Told;
    match phase {
      case Waiting => next := Computed(SafeReply(s.host, s.files, job));
      case Computed(reply) =>
        Record(s, reply);
        next := Recorded(reply);
      case Recorded(reply) =>
        slots[k] := Told(job.world, reply);
        next := Stored;
    }
  }

  /** Every call of a batch is where it should be. */
  ghost predicate OnTrack(host: Host, files: Files, jobs: seq<Job>, phases: seq<Phase>, noted: set<int>,
                          slots: seq<Reply>) {
    && |phases| == |jobs| == |slots| && (forall k | k in noted :: 0 <= k < |jobs|)
    && forall k | 0 <= k < |jobs| ::
         InPhase(phases[k], SafeReply(host, files, jobs[k]), k in noted, slots[k], SafeTold(host, files, jobs[k]))
  }

  lemma StaysOnTrack(host: Host, files: Files, jobs: seq<Job>, phases: seq<Phase>, noted: set<int>, slots: seq<Reply>,
                     k: nat)
    requires OnTrack(host, files, jobs, phases, noted, slots) && k < |jobs| == |phases| == |slots|
             && phases[k] != Stored
    ensures phases[k].Computed? ==> phases[k].reply == SafeReply(host, files, jobs[k])
    ensures var next := NextPhase(host, files, jobs[k], phases[k]);
            StepsLeft(next) < StepsLeft(phases[k])
            && OnTrack(host, files, jobs, phases[k := next], if phases[k].Computed? then noted + {k} else noted,
                       if phases[k].Recorded? then slots[k := Told(jobs[k].world, phases[k].reply)] else slots)
  {
    hide SafeReply, Told;
  }

  lemma AllStored(host: Host, files: Files, jobs: seq<Job>, phases: seq<Phase>, noted: set<int>, slots: seq<Reply>)
    requires OnTrack(host, files, jobs, phases, noted, slots)
    requires forall k | 0 <= k < |phases| :: phases[k] == Stored
    ensures slots == ToldAll(host, files, jobs) && forall k :: k in noted <==> 0 <= k < |jobs|
  {
    hide SafeReply, SafeTold;
  }

  /** The goroutines of one batch.  Each call is three atomic steps: work out the reply
      from the files, enter its observation under the ledger's lock, fill its own slot.
      Any call may take its next step at any time. */
  method RunBatch(s: Session, jobs: seq<Job>) returns (slots: array<Reply>)
    requires s.Valid()
    requires forall k | 0 <= k < |jobs| :: Overlaps(jobs[k].call)
    modifies s.ledger
    ensures fresh(slots)
    ensures Turn(s.View(), slots[..]) == RunInOrder(s.host, old(s.View()), jobs)
  {
    ghost var start := s.View();
    slots := new Reply[|jobs|];
    var phases := seq(|jobs|, k => Waiting);
    ghost var noted: set<int> := {};
    NothingRecorded(s.host, start, jobs);
    assert OnTrack(s.host, s.files, jobs, phases, noted, slots[..]);
    while exists k :: 0 <= k < |phases| && phases[k] != Stored
      invariant |phases| == |jobs| == slots.Length && forall k | k in noted :: 0 <= k < |jobs|
      invariant s.ledger.entries == LedgerAfter(s.host, start, jobs, noted)
      invariant OnTrack(s.host, s.files, jobs, phases, noted, slots[..])
      decreases Remaining(phases)
    {
      hide *;
      var k :| 0 <= k < |phases| && phases[k] != Stored;
      RecordStep(s.host, start, jobs, noted, k);
      StaysOnTrack(s.host, s.files, jobs, phases, noted, slots[..], k);
      var next := TakeStep(s, jobs[k], phases[k], slots, k);
      if phases[k].Computed? { noted := noted + {k}; }
      RemainingDrops(phases, k, next);
      phases := phases[k := next];
    }
    AllStored(s.host, s.files, jobs, phases, noted, slots[..]);
    hide LedgerAfter, ToldAll, RunInOrder;
    BatchIsOrdered(s.host, start, jobs, noted);
    assert slots[..] == ToldAll(s.host, s.files, jobs);
  }

  /** The whole turn.  The results, the files and the ledger are those of running the
      calls one at a time in order, whatever the limit and the interleavings. */
  method RunToolCalls(s: Session, jobs: seq<Job>, maxParallel: int)
    returns (results: seq<Reply>, batches: seq<Batch>)
    requires s.Valid()
    modifies s`files, s.ledger
    ensures Turn(s.View(), results) == RunInOrder(s.host, old(s.View()), jobs)
    ensures Tiles(batches, jobs, if maxParallel < 1 then 1 else maxParallel, |jobs|)
  {
    var limit := if maxParallel < 1 then 1 else maxParallel;
    results, batches := [], [];
    var i := 0;
    ghost var start := s.View();
    while i < |jobs|
      invariant 0 <= i <= |jobs|
      invariant Turn(s.View(), results) == RunInOrder(s.host, start, jobs[..i])
      invariant Tiles(batches, jobs, limit, i)
    {
      var end := BatchEnd(jobs, i, limit);
      var replies := RunSpan(s, jobs, i, end);
      RunInOrderSplit(s.host, start, jobs[..i], jobs[i..end]);
      assert jobs[..end] == jobs[..i] + jobs[i..end];
      TilesExtend(batches, jobs, limit, i, end);
      results := results + replies;
      batches := batches + [Batch(i, end)];
      i := end;
    }
    assert jobs[..i] == jobs;
  }

  lemma TilesExtend(batches: seq<Batch>, jobs: seq<Job>, limit: nat, i: nat, end: nat)
    requires Tiles(batches, jobs, limit, i) && Sound(Batch(i, end), jobs, limit)
    ensures Tiles(batches + [Batch(i, end)], jobs, limit, end)
  {
  }

  /** Where the batch that starts at i ends. */
  method BatchEnd(jobs: seq<Job>, i: nat, limit: nat) returns (end: nat)
    requires i < |jobs| && limit >= 1
    ensures Sound(Batch(i, end), jobs, limit)
  {
    end := i + 1;
    if Overlaps(jobs[i].call) {
      while end < |jobs| && end - i < limit && Overlaps(jobs[end].call)
        invariant i < end <= |jobs| && end - i <= limit
        invariant forall k | i <= k < end :: Overlaps(jobs[k].call)
      {
        end := end + 1;
      }
    }
  }

  /** A lone call runs directly; several run as a batch. */
  method RunSpan(s: Session, jobs: seq<Job>, i: nat, end: nat) returns (replies: seq<Reply>)
    requires s.Valid() && i < end <= |jobs|
    requires end - i > 1 ==> forall k | i <= k < end :: Overlaps(jobs[k].call)
    modifies s`files, s.ledger
    ensures Turn(s.View(), replies) == RunInOrder(s.host, old(s.View()), jobs[i..end])
  {
    if end - i == 1 {
      RunOne(s.host, s.View(), jobs[i]);
      var reply := s.Invoke(jobs[i].call, jobs[i].world);
      assert jobs[i..end] == [jobs[i]];
      replies := [reply];
    } else {
      var slots := RunBatch(s, jobs[i..end]);
      replies := slots[..];
    }
  }
}
