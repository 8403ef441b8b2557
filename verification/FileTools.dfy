/** The tools that touch files (internal/tools/read.go, edit.go, write.go) and the
    dispatch that runs any call (internal/agent/loop.go, invoke).  The file system is a
    map; whatever the outside world decides about a call is its World. */
module FileTools {
  import opened Wrappers
  import opened Text
  import opened Strings
  import opened Messages
  import opened Ledgers

  /** What is at a path.  Special is neither file nor directory; Locked is a regular
      file that cannot be read. */
  datatype Node = File(bytes: string) | Directory | Special | Locked

  type Files = map<string, Node>

  datatype Code =
    | InvalidArguments
    | BadPath
    | IsDirectory
    | NotRegular
    | BinaryFile
    | IoError
    | NoMatch
    | Ambiguous
    | Unauthorised(verdict: Verdict)
    | UnknownTool
    | Stopped

  /** A finished tool call, before it is rendered for the model. */
  datatype Reply =
    | Failed(code: Code)
    | Shown(path: string, bytes: string, offset: int, limit: int)
    | Missing(path: string)
    | Edited(path: string, bytes: string, replacements: nat)
    | Written(path: string, bytes: string, created: bool)
    | Searched(text: string)
    | Ran(text: string)
    | Denied(reason: string)

  /** How an attempt to write a file ends; a failed one may leave anything behind. */
  datatype Disk = Writes | Refuses | Mangles(left: string)

  /** What the surroundings contribute to one call: a guard's refusal, whether the request
      has been cancelled by the time the tool is done, the outcome of a search, the text
      and after-effects of a command, the fate of a write. */
  datatype World = World(
    denied: Option<string>,
    cancelled: bool,
    found: string,
    output: string,
    finishes: bool,
    afterwards: Files,
    disk: Disk)

  /** The parts of the server the model leaves open: the digest, the jail's path
      normalisation (None for a path outside it) and the wording of results. */
  datatype Host = Host(sha: Hash, rel: string -> Option<string>, render: Reply -> string)

  datatype State = State(files: Files, entries: Entries, turn: int)

  datatype Outcome = Outcome(after: State, reply: Reply)

  /** A write an authorised call is about to make. */
  datatype Target = Target(path: string, was: Option<string>, now: string, done: Reply)

  /** A NUL byte in the first 8 KiB. */
  predicate HasNul(content: string, probe: int) {
    if content == "" || probe <= 0 then false
    else content[0] as int == 0 || HasNul(content[1..], probe - RuneBytes(content[0]))
  }

  predicate IsBinary(content: string) {
    HasNul(content, 8192)
  }

  /** Read.Execute, apart from what it records. */
  function ReadReply(host: Host, files: Files, path: string, offset: int, limit: int): Reply {
    if path == "" || offset < 0 then Failed(InvalidArguments)
    else
      match host.rel(path)
      case None => Failed(BadPath)
      case Some(rel) =>
        if rel !in files then Missing(rel)
        else match files[rel]
          case Directory => Failed(IsDirectory)
          case Special => Failed(NotRegular)
          case Locked => Failed(IoError)
          case File(bytes) =>
            if IsBinary(bytes) then Failed(BinaryFile) else Shown(rel, bytes, offset, limit)
  }

  /** Edit.Execute up to the moment it writes. */
  function EditPlan(host: Host, s: State, path: string, oldS: string, newS: string, all: bool): Result<Target, Reply> {
    if path == "" || oldS == "" || oldS == newS then Err(Failed(InvalidArguments))
    else
      match host.rel(path)
      case None => Err(Failed(BadPath))
      case Some(rel) =>
        if rel !in s.files then Err(Missing(rel))
        else if !s.files[rel].File? then Err(Failed(IoError))
        else
          var text := s.files[rel].bytes;
          var verdict := Verdicts(host.sha, s.entries, rel, text, true);
          var count := Count(text, oldS);
          if verdict != Granted then Err(Failed(Unauthorised(verdict)))
          else if count == 0 then Err(Failed(NoMatch))
          else if count > 1 && !all then Err(Failed(Ambiguous))
          else
            var updated := Replace(text, oldS, newS, if all then -1 else 1);
            Ok(Target(rel, Some(text), updated, Edited(rel, updated, count)))
  }

  /** Write.Execute up to the moment it writes. */
  function WritePlan(host: Host, s: State, path: string, content: string): Result<Target, Reply> {
    if path == "" then Err(Failed(InvalidArguments))
    else
      match host.rel(path)
      case None => Err(Failed(BadPath))
      case Some(rel) =>
        if rel in s.files && s.files[rel].Directory? then Err(Failed(IsDirectory))
        else if rel in s.files && !s.files[rel].File? then Err(Failed(IoError))
        else
          var present := rel in s.files;
          var existing := if present then s.files[rel].bytes else "";
          var verdict := Verdicts(host.sha, s.entries, rel, existing, present);
          if verdict != Granted then Err(Failed(Unauthorised(verdict)))
          else Ok(Target(rel, if present then Some(existing) else None, content, Written(rel, content, !present)))
  }

  /** The write a call is entitled to make in a state, if it gets that far. */
  function Plan(host: Host, s: State, call: ToolCall): Option<Target> {
    match call.invocation
    case Edit(p, o, n, all) => (match EditPlan(host, s, p, o, n, all) case Ok(t) => Some(t) case Err(_) => None)
    case Write(p, c) => (match WritePlan(host, s, p, c) case Ok(t) => Some(t) case Err(_) => None)
    case _ => None
  }

  /** The ledger after a reply: the only trace a call leaves in it is the observation
      its reply reports. */
  function Noted(sha: Hash, es: Entries, reply: Reply, turn: int): Entries {
    match reply
    case Shown(p, b, _, _) => es[p := Seen(sha, p, b, turn)]
    case Edited(p, b, _) => es[p := Seen(sha, p, b, turn)]
    case Written(p, b, _) => es[p := Seen(sha, p, b, turn)]
    case Missing(p) => es[p := SeenAbsent(p, turn)]
    case _ => es
  }

  function Commit(host: Host, s: State, t: Target, disk: Disk): Outcome {
    match disk
    case Writes =>
      Outcome(State(s.files[t.path := File(t.now)], Noted(host.sha, s.entries, t.done, s.turn), s.turn), t.done)
    case Refuses => Outcome(s, Failed(IoError))
    case Mangles(left) => Outcome(s.(files := s.files[t.path := File(left)]), Failed(IoError))
  }

  function Conclude(host: Host, s: State, plan: Result<Target, Reply>, disk: Disk): Outcome {
    match plan
    case Ok(t) => Commit(host, s, t, disk)
    case Err(reply) => Outcome(s.(entries := Noted(host.sha, s.entries, reply, s.turn)), reply)
  }

  /** The tool itself, behind the guards. */
  function Perform(host: Host, s: State, call: ToolCall, w: World): Outcome {
    if w.denied.Some? then Outcome(s, Denied(w.denied.value))
    else
      match call.invocation
      case Read(p, offset, limit) =>
        var reply := ReadReply(host, s.files, p, offset, limit);
        Outcome(s.(entries := Noted(host.sha, s.entries, reply, s.turn)), reply)
      case Edit(p, o, n, all) => Conclude(host, s, EditPlan(host, s, p, o, n, all), w.disk)
      case Write(p, c) => Conclude(host, s, WritePlan(host, s, p, c), w.disk)
      case Search(_) => Outcome(s, if w.finishes then Searched(w.found) else Failed(IoError))
      case Bash(_) => Outcome(s.(files := w.afterwards), if w.finishes then Ran(w.output) else Failed(IoError))
      case Unfit(_, tool) => Outcome(s, Failed(if tool.None? then UnknownTool else InvalidArguments))
  }

  /** What the model is told: once the request is cancelled, any error of a tool that
      exists reads as a stopped call. */
  function Told(w: World, reply: Reply): Reply {
    if w.cancelled && (reply.Failed? || reply.Missing?) && reply != Failed(UnknownTool) then Failed(Stopped) else reply
  }

  /** Loop.invoke followed by Registry.Invoke. */
  function Execute(host: Host, s: State, call: ToolCall, w: World): Outcome {
    var o := Perform(host, s, call, w);
    Outcome(o.after, Told(w, o.reply))
  }

  /** A call together with what its surroundings will do. */
  datatype Job = Job(call: ToolCall, world: World)

  datatype Turn = Turn(after: State, replies: seq<Reply>)

  /** The calls of one turn, one at a time and in order. */
  function RunInOrder(host: Host, s: State, jobs: seq<Job>): (t: Turn)
    ensures |t.replies| == |jobs|
    decreases jobs
  {
    if jobs == [] then Turn(s, [])
    else
      var first := Execute(host, s, jobs[0].call, jobs[0].world);
      var rest := RunInOrder(host, first.after, jobs[1..]);
      Turn(rest.after, [first.reply] + rest.replies)
  }

  /** The bytes a path was last seen to hold, according to a list of replies. */
  function Observed(reply: Reply): Option<(string, string)> {
    match reply
    case Shown(p, b, _, _) => Some((p, b))
    case Edited(p, b, _) => Some((p, b))
    case Written(p, b, _) => Some((p, b))
    case _ => None
  }

  function NotedAll(sha: Hash, es: Entries, replies: seq<Reply>, turn: int): Entries
    decreases replies
  {
    if replies == [] then es
    else NotedAll(sha, Noted(sha, es, replies[0], turn), replies[1..], turn)
  }

  /** What the tools replied, before cancellation changed it. */
  function Replied(host: Host, s: State, jobs: seq<Job>): (replies: seq<Reply>)
    ensures |replies| == |jobs|
    decreases jobs
  {
    if jobs == [] then []
    else
      var first := Perform(host, s, jobs[0].call, jobs[0].world);
      [first.reply] + Replied(host, first.after, jobs[1..])
  }

  lemma PerformNotes(host: Host, s: State, call: ToolCall, w: World)
    ensures var o := Perform(host, s, call, w);
            o.after.turn == s.turn && o.after.entries == Noted(host.sha, s.entries, o.reply, s.turn)
  {
  }

  /** The ledger is a function of what the tools replied, and the model is told all of it
      but for the errors of a cancelled request. */
  lemma {:induction false} LedgerFollowsReplies(host: Host, s: State, jobs: seq<Job>)
    ensures var t, replied := RunInOrder(host, s, jobs), Replied(host, s, jobs);
            && t.after.turn == s.turn && t.after.entries == NotedAll(host.sha, s.entries, replied, s.turn)
            && forall k | 0 <= k < |jobs| :: t.replies[k] == Told(jobs[k].world, replied[k])
    decreases jobs
  {
    if jobs != [] {
      var first := Perform(host, s, jobs[0].call, jobs[0].world);
      PerformNotes(host, s, jobs[0].call, jobs[0].world);
      LedgerFollowsReplies(host, first.after, jobs[1..]);
      var rest := Replied(host, first.after, jobs[1..]);
      assert ([first.reply] + rest)[1..] == rest;
    }
  }

  /** A call that is let through, asks to read or edit a file with arguments that make
      sense, and names a path in the jail where nothing is. */
  predicate FindsNothing(host: Host, s: State, call: ToolCall, w: World) {
    && w.denied.None?
    && (match call.invocation
        case Read(p, offset, _) => p != "" && offset >= 0
        case Edit(p, o, n, _) => p != "" && o != "" && o != n
        case _ => false)
    && host.rel(ArgPath(call)).Some? && host.rel(ArgPath(call)).value !in s.files
  }

  /** The ledger knows already, as of this turn, that there is nothing. */
  predicate KnownAbsent(s: State, p: string) {
    p in s.entries && s.entries[p] == SeenAbsent(p, s.turn)
  }

  lemma FindsNothingIff(host: Host, s: State, call: ToolCall, w: World)
    ensures Perform(host, s, call, w).reply.Missing? <==> FindsNothing(host, s, call, w)
    ensures FindsNothing(host, s, call, w) ==> Perform(host, s, call, w).reply == Missing(host.rel(ArgPath(call)).value)
  {
    hide IsBinary, Verdicts, Count, Replace, Noted;
  }

  /** So a call leaves in the ledger exactly what its reply says, unless the request was
      cancelled, the call found nothing where it was to read or edit, and that was news. */
  lemma NothingUntoldIff(host: Host, s: State, call: ToolCall, w: World)
    ensures var o := Execute(host, s, call, w);
            o.after.entries == Noted(host.sha, s.entries, o.reply, s.turn)
            <==> !(w.cancelled && FindsNothing(host, s, call, w) && !KnownAbsent(s, host.rel(ArgPath(call)).value))
  {
    hide Perform, FindsNothing;
    var raw := Perform(host, s, call, w).reply;
    PerformNotes(host, s, call, w);
    FindsNothingIff(host, s, call, w);
    if raw.Missing? {
      assert Noted(host.sha, s.entries, raw, s.turn)[raw.path] == SeenAbsent(raw.path, s.turn);
    }
  }

  /** The smallest such call: a read of a file that is not there, in a request that is
      being cancelled. */
  lemma AbsenceCanGoUntold(host: Host, w: World)
    requires host.rel("a") == Some("a") && w.denied.None? && w.cancelled
    ensures var o := Execute(host, State(map[], map[], 1), ToolCall("c", "read", "", Read("a", 0, 0)), w);
            o.reply == Failed(Stopped) && o.after.entries == map["a" := SeenAbsent("a", 1)]
  {
  }

  /** Running a list of calls is running its front and then its back. */
  lemma {:induction false} RunInOrderSplit(host: Host, s: State, a: seq<Job>, b: seq<Job>)
    ensures var t := RunInOrder(host, s, a);
            var u := RunInOrder(host, t.after, b);
            RunInOrder(host, s, a + b) == Turn(u.after, t.replies + u.replies)
    decreases a
  {
    hide Execute;
    if a == [] {
      assert a + b == b;
      var u := RunInOrder(host, s, b);
      assert [] + u.replies == u.replies;
    } else {
      var first := Execute(host, s, a[0].call, a[0].world);
      RunInOrderSplit(host, first.after, a[1..], b);
      assert (a + b)[1..] == a[1..] + b;
      assert RunInOrder(host, s, a + b).after == RunInOrder(host, first.after, a[1..] + b).after;
      assert RunInOrder(host, s, a + b).replies == [first.reply] + RunInOrder(host, first.after, a[1..] + b).replies;
      var t := RunInOrder(host, first.after, a[1..]);
      var u := RunInOrder(host, t.after, b);
      assert RunInOrder(host, s, a) == Turn(t.after, [first.reply] + t.replies);
      hide RunInOrder;
      assert [first.reply] + (t.replies + u.replies) == [first.reply] + t.replies + u.replies;
    }
  }

  lemma RunOne(host: Host, s: State, job: Job)
    ensures var o := Execute(host, s, job.call, job.world);
            RunInOrder(host, s, [job]) == Turn(o.after, [o.reply])
  {
    var first := Execute(host, s, job.call, job.world);
    assert [job][1..] == [];
    assert RunInOrder(host, first.after, []) == Turn(first.after, []);
  }

  /** An authorised change to an existing file has an unspoiled observation of exactly
      the bytes it is about to destroy, up to their digest. */
  lemma OverwriteIsWitnessed(host: Host, s: State, call: ToolCall)
    requires Plan(host, s, call).Some? && Plan(host, s, call).value.was.Some?
    ensures var t := Plan(host, s, call).value;
            && t.path in s.files && s.files[t.path] == File(t.was.value)
            && t.path in s.entries && !s.entries[t.path].stale && s.entries[t.path].present
            && s.entries[t.path].digest == host.sha(t.was.value)
  {
  }

  lemma PlanKnowsTheFile(host: Host, s: State, call: ToolCall, bytes: string)
    requires Plan(host, s, call).Some?
    ensures var t := Plan(host, s, call).value;
            t.path in s.files && s.files[t.path] == File(bytes) ==> t.was == Some(bytes)
  {
    hide Count, Replace, Verdicts;
  }

  /** A call changes a file only through its plan or, if it is a command, at will. */
  lemma OnlyPlannedWrites(host: Host, s: State, call: ToolCall, w: World, p: string)
    requires !call.invocation.Bash?
    requires var o := Execute(host, s, call, w); (p in o.after.files) != (p in s.files)
                                                 || (p in s.files && o.after.files[p] != s.files[p])
    ensures w.denied.None? && Plan(host, s, call).Some? && Plan(host, s, call).value.path == p
  {
    hide EditPlan, WritePlan, ReadReply, Noted, Told;
  }

  /** A file that no longer holds what the ledger saw, or was never seen, is refused:
      the call fails and neither files nor ledger change. */
  lemma UnwitnessedChangeIsRefused(host: Host, s: State, call: ToolCall, w: World, p: string, bytes: string)
    requires w.denied.None?
    requires call.invocation.Write? || call.invocation.Edit?
    requires call.invocation.path != "" && host.rel(call.invocation.path) == Some(p)
    requires call.invocation.Edit? ==>
               call.invocation.oldString != "" && call.invocation.oldString != call.invocation.newString
    requires p in s.files && s.files[p] == File(bytes)
    requires !(p in s.entries && !s.entries[p].stale && s.entries[p].present && s.entries[p].digest == host.sha(bytes))
    ensures var o := Execute(host, s, call, w);
            o.after == s && o.reply.Failed? && (o.reply.code.Unauthorised? || (w.cancelled && o.reply.code == Stopped))
  {
  }

  lemma EditPlanChangesOnlyMatches(host: Host, s: State, path: string, o: string, n: string, all: bool)
    requires EditPlan(host, s, path, o, n, all).Ok?
    ensures var t := EditPlan(host, s, path, o, n, all).value;
            && t.was.Some? && t.done == Edited(t.path, t.now, Count(t.was.value, o)) && o != ""
            && OnlyMatchesChanged(t.was.value, o, n, t.now, Count(t.was.value, o))
            && Count(t.was.value, o) >= 1 && (!all ==> Count(t.was.value, o) == 1)
  {
    var t := EditPlan(host, s, path, o, n, all).value;
    ReplaceChangesOnlyMatches(t.was.value, o, n, all);
  }

  lemma EditReplies(host: Host, s: State, call: ToolCall, w: World)
    requires call.invocation.Edit? && Execute(host, s, call, w).reply.Edited?
    ensures var e, o := call.invocation, Execute(host, s, call, w);
            var plan := EditPlan(host, s, e.path, e.oldString, e.newString, e.replaceAll);
            && plan.Ok? && o.reply == plan.value.done
            && o.after.files == s.files[plan.value.path := File(plan.value.now)]
  {
    hide Count, Replace, Verdicts;
  }

  /** A successful edit rewrites the occurrences of old_string and nothing else; unless
      replace_all was asked for there was exactly one. */
  lemma EditChangesOnlyMatches(host: Host, s: State, call: ToolCall, w: World)
    requires call.invocation.Edit? && Execute(host, s, call, w).reply.Edited?
    ensures var (reply, e) := (Execute(host, s, call, w).reply, call.invocation);
            && reply.path in s.files && s.files[reply.path].File?
            && Execute(host, s, call, w).after.files == s.files[reply.path := File(reply.bytes)]
            && OnlyMatchesChanged(s.files[reply.path].bytes, e.oldString, e.newString, reply.bytes, reply.replacements)
            && reply.replacements >= 1 && (!e.replaceAll ==> reply.replacements == 1)
  {
    var e := call.invocation;
    hide Noted, OnlyMatchesChanged, Count;
    var plan := EditPlan(host, s, e.path, e.oldString, e.newString, e.replaceAll);
    EditReplies(host, s, call, w);
    EditPlanChangesOnlyMatches(host, s, e.path, e.oldString, e.newString, e.replaceAll);
    OverwriteIsWitnessed(host, s, call);
    assert Plan(host, s, call) == Some(plan.value);
    hide *;
  }
}
