/** What a tool call does, said of the call as a whole (internal/tools/read.go, edit.go,
    write.go): exactly when it succeeds, what it then reports, and what it leaves in the
    files and in the ledger. */
module ToolEffects {
  import opened Text
  import opened Strings
  import opened Messages
  import opened Ledgers
  import opened FileTools

  /** The ledger entitles the model to change what is, or is not, at this path. */
  predicate Entitled(host: Host, s: State, q: string) {
    if q in s.files then
      && s.files[q].File? && q in s.entries && !s.entries[q].stale && s.entries[q].present
      && s.entries[q].digest == host.sha(s.files[q].bytes)
    else q in s.entries ==> !s.entries[q].stale && !s.entries[q].present
  }

  /** The ledger has seen a path hold these bytes in this turn, and nothing else is new to it. */
  predicate Records(host: Host, s: State, after: State, q: string, bytes: string) {
    && after.turn == s.turn
    && after.entries == s.entries[q := Observation(q, true, host.sha(bytes), ByteLen(bytes), s.turn, false)]
  }

  /** And so has the disk. */
  predicate Leaves(host: Host, s: State, after: State, q: string, bytes: string) {
    after.files == s.files[q := File(bytes)] && Records(host, s, after, q, bytes)
  }

  /** A failed call changes nothing, unless its write was cut short: then the disk may hold
      anything at the path, and the ledger is as it was. */
  predicate Fails(s: State, o: Outcome, q: string, w: World) {
    && (o.reply.Failed? || o.reply.Denied?) && o.after.entries == s.entries && o.after.turn == s.turn
    && (o.after.files == s.files || (w.disk.Mangles? && o.after.files == s.files[q := File(w.disk.left)]))
  }

  /** Write succeeds exactly when it may, and then the file holds what it was given, the
      ledger has seen just that, and the reply says whether the file is new. */
  lemma WriteWrites(host: Host, s: State, call: ToolCall, w: World)
    requires call.invocation.Write?
    ensures var (p, c, o) := (call.invocation.path, call.invocation.content, Execute(host, s, call, w));
            && (o.reply.Written? <==>
                  && w.denied.None? && p != "" && host.rel(p).Some? && Entitled(host, s, host.rel(p).value)
                  && w.disk.Writes?)
            && (o.reply.Written? ==>
                  var q := host.rel(p).value;
                  o.reply == Written(q, c, q !in s.files) && Leaves(host, s, o.after, q, c))
            && (!o.reply.Written? ==> Fails(s, o, if host.rel(p).Some? then host.rel(p).value else "", w))
  {
    var p := call.invocation.path;
    if host.rel(p).Some? {
      var q := host.rel(p).value;
      var now := if q in s.files && s.files[q].File? then s.files[q].bytes else "";
      GrantedIff(host.sha, s.entries, q, now, q in s.files);
      hide Verdicts;
    }
  }

  /** Edit succeeds exactly when it may and there is something to replace, one occurrence
      or, if all were asked for, any number; then the file holds what the reply says. */
  lemma EditEdits(host: Host, s: State, call: ToolCall, w: World)
    requires call.invocation.Edit?
    ensures var (e, o) := (call.invocation, Execute(host, s, call, w));
            && (o.reply.Edited? <==>
                  && w.denied.None? && e.path != "" && e.oldString != "" && e.oldString != e.newString
                  && host.rel(e.path).Some? && host.rel(e.path).value in s.files
                  && Entitled(host, s, host.rel(e.path).value)
                  && var n := Count(s.files[host.rel(e.path).value].bytes, e.oldString);
                     n >= 1 && (n == 1 || e.replaceAll) && w.disk.Writes?)
            && (o.reply.Edited? ==>
                  var q := host.rel(e.path).value;
                  o.reply.path == q && Leaves(host, s, o.after, q, o.reply.bytes))
            && (!o.reply.Edited? && !FindsNothing(host, s, call, w) ==>
                  Fails(s, o, if host.rel(e.path).Some? then host.rel(e.path).value else "", w))
  {
    hide Count, Replace, FindsNothing;
    var e := call.invocation;
    FindsNothingIff(host, s, call, w);
    if host.rel(e.path).Some? {
      var q := host.rel(e.path).value;
      var now := if q in s.files && s.files[q].File? then s.files[q].bytes else "";
      GrantedIff(host.sha, s.entries, q, now, q in s.files);
      hide Verdicts;
    }
  }

  /** Counting matches is counting them: there are none exactly if there is no occurrence. */
  lemma CountsMatches(text: string, pat: string)
    requires pat != ""
    ensures Count(text, pat) >= 1 <==> exists i :: OccursAt(text, pat, i)
  {
    FindLeftmost(text, pat);
    match Find(text, pat)
    case None =>
    case Some(i) => assert OccursAt(text, pat, i);
  }

  /** Read succeeds exactly when there is a text file it may look at, and then it shows
      that file's bytes, and the ledger has seen just those. */
  lemma ReadReads(host: Host, s: State, call: ToolCall, w: World)
    requires call.invocation.Read?
    ensures var (r, o) := (call.invocation, Execute(host, s, call, w));
            && (o.reply.Shown? <==>
                  && w.denied.None? && r.path != "" && r.offset >= 0 && host.rel(r.path).Some?
                  && var q := host.rel(r.path).value;
                     q in s.files && s.files[q].File? && !IsBinary(s.files[q].bytes))
            && (o.reply.Shown? ==>
                  var q := host.rel(r.path).value;
                  && o.reply == Shown(q, s.files[q].bytes, r.offset, r.limit)
                  && Records(host, s, o.after, q, s.files[q].bytes))
            && o.after.files == s.files && (!o.reply.Shown? && !FindsNothing(host, s, call, w) ==> Fails(s, o, "", w))
  {
    hide IsBinary, FindsNothing;
    FindsNothingIff(host, s, call, w);
  }

  /** A NUL among the characters that start within so many bytes. */
  ghost predicate NulAt(content: string, probe: int, k: int) {
    0 <= k < |content| && content[k] as int == 0 && ByteLen(content[..k]) < probe
  }

  lemma NulAtFront(content: string, probe: int)
    requires content != ""
    ensures NulAt(content, probe, 0) <==> content[0] as int == 0 && probe > 0
  {
    assert content[..0] == "";
  }

  lemma NulAtNext(content: string, probe: int, k: int)
    requires content != "" && k > 0
    ensures NulAt(content, probe, k) <==> NulAt(content[1..], probe - RuneBytes(content[0]), k - 1)
  {
    if k < |content| {
      assert content[..k][1..] == content[1..][..k - 1];
    }
  }

  lemma {:induction false} HasNulIff(content: string, probe: int)
    ensures HasNul(content, probe) <==> exists k :: NulAt(content, probe, k)
    decreases content
  {
    hide NulAt;
    if content == "" || probe <= 0 {
      NoNul(content, probe);
    } else {
      var rest, left := content[1..], probe - RuneBytes(content[0]);
      HasNulIff(rest, left);
      NulAtFront(content, probe);
      forall k | k > 0 ensures NulAt(content, probe, k) <==> NulAt(rest, left, k - 1) {
        NulAtNext(content, probe, k);
      }
      if k :| NulAt(rest, left, k) {
        NulIsInside(rest, left, k);
        assert NulAt(content, probe, k + 1);
      }
      if k :| NulAt(content, probe, k) {
        NulIsInside(content, probe, k);
      }
    }
  }

  lemma NoNul(content: string, probe: int)
    requires content == "" || probe <= 0
    ensures !exists k :: NulAt(content, probe, k)
  {
  }

  lemma NulIsInside(content: string, probe: int, k: int)
    requires NulAt(content, probe, k)
    ensures 0 <= k < |content|
  {
  }

  /** A file is binary exactly if a NUL starts within its first 8192 bytes. */
  lemma BinaryIff(content: string)
    ensures IsBinary(content) <==> exists k :: NulAt(content, 8192, k)
  {
    HasNulIff(content, 8192);
  }

  /** Searches and calls no tool accepts leave everything alone; a command leaves the
      ledger alone and the files as it pleases; and nothing happens behind a refusal. */
  lemma OthersAreAsTheySay(host: Host, s: State, call: ToolCall, w: World)
    ensures var o := Execute(host, s, call, w);
            && (w.denied.Some? ==> o == Outcome(s, Denied(w.denied.value)))
            && (w.denied.None? && call.invocation.Search? ==>
                  o.after == s && (if w.finishes then o.reply == Searched(w.found) else o.reply.Failed?))
            && (w.denied.None? && call.invocation.Bash? ==>
                  o.after == s.(files := w.afterwards)
                  && (if w.finishes then o.reply == Ran(w.output) else o.reply.Failed?))
            && (w.denied.None? && call.invocation.Unfit? ==> o.after == s && o.reply.Failed?)
  {
    hide EditPlan, WritePlan, ReadReply;
  }

  /** An error of a cancelled request says that the call was stopped, unless there was no
      such tool; nothing else is told otherwise than it happened. */
  lemma CancellationStops(host: Host, s: State, call: ToolCall, w: World)
    ensures var (o, raw) := (Execute(host, s, call, w), Execute(host, s, call, w.(cancelled := false)));
            && o.after == raw.after
            && o.reply == if w.cancelled && (raw.reply.Failed? || raw.reply.Missing?)
                             && raw.reply != Failed(UnknownTool)
                          then Failed(Stopped) else raw.reply
  {
    hide EditPlan, WritePlan, ReadReply, Noted, Commit;
  }
}
