/** A session (internal/workspace/session.go) and the tools run against it, in the
    order of checks the tools make. */
module Sessions {
  import opened Wrappers
  import opened Strings
  import opened Messages
  import opened Ledgers
  import opened FileTools

  class Session {
    var files: Files
    var turn: int
    const ledger: Ledger
    const host: Host

    ghost predicate Valid() {
      ledger.sha == host.sha
    }

    ghost function View(): State
      reads this, ledger
    {
      State(files, ledger.entries, turn)
    }

    constructor (host: Host, files: Files)
      ensures Valid() && fresh(ledger) && this.host == host
      ensures View() == State(files, map[], 0)
    {
      this.files := files;
      turn := 0;
      ledger := new Ledger(host.sha);
      this.host := host;
    }

    method ReadFile(path: string, offset: int, limit: int) returns (reply: Reply)
      requires Valid()
      modifies ledger
      ensures reply == ReadReply(host, files, path, offset, limit)
      ensures ledger.entries == Noted(host.sha, old(ledger.entries), reply, turn)
    {
      if path == "" || offset < 0 { return Failed(InvalidArguments); }
      var rel := host.rel(path);
      if rel == None { return Failed(BadPath); }
      if rel.value !in files {
        ledger.ObserveAbsent(rel.value, turn);
        return Missing(rel.value);
      }
      match files[rel.value] {
        case Directory => return Failed(IsDirectory);
        case Special => return Failed(NotRegular);
        case Locked => return Failed(IoError);
        case File(bytes) =>
          if IsBinary(bytes) { return Failed(BinaryFile); }
          ledger.Observe(rel.value, bytes, turn);
          return Shown(rel.value, bytes, offset, limit);
      }
    }

    method EditFile(path: string, oldString: string, newString: string, replaceAll: bool, disk: Disk)
      returns (reply: Reply)
      requires Valid()
      modifies this`files, ledger
      ensures Outcome(View(), reply)
              == Conclude(host, old(View()), EditPlan(host, old(View()), path, oldString, newString, replaceAll), disk)
    {
      hide Count, Replace, Verdicts;
      if path == "" || oldString == "" || oldString == newString { return Failed(InvalidArguments); }
      var rel := host.rel(path);
      if rel == None { return Failed(BadPath); }
      if rel.value !in files {
        ledger.ObserveAbsent(rel.value, turn);
        return Missing(rel.value);
      }
      if !files[rel.value].File? { return Failed(IoError); }
      var text := files[rel.value].bytes;
      var verdict := ledger.Authorize(rel.value, text, true);
      if verdict != Granted { return Failed(Unauthorised(verdict)); }
      var count := Count(text, oldString);
      if count == 0 { return Failed(NoMatch); }
      if count > 1 && !replaceAll { return Failed(Ambiguous); }
      var updated := Replace(text, oldString, newString, if replaceAll then -1 else 1);
      var written := Store(rel.value, updated, disk);
      if !written { return Failed(IoError); }
      ledger.Observe(rel.value, updated, turn);
      return Edited(rel.value, updated, count);
    }

    method WriteFile(path: string, content: string, disk: Disk) returns (reply: Reply)
      requires Valid()
      modifies this`files, ledger
      ensures Outcome(View(), reply)
              == Conclude(host, old(View()), WritePlan(host, old(View()), path, content), disk)
    {
      if path == "" { return Failed(InvalidArguments); }
      var rel := host.rel(path);
      if rel == None { return Failed(BadPath); }
      var present := rel.value in files;
      if present && files[rel.value].Directory? { return Failed(IsDirectory); }
      if present && !files[rel.value].File? { return Failed(IoError); }
      var existing := if present then files[rel.value].bytes else "";
      var verdict := ledger.Authorize(rel.value, existing, present);
      if verdict != Granted { return Failed(Unauthorised(verdict)); }
      var written := Store(rel.value, content, disk);
      if !written { return Failed(IoError); }
      ledger.Observe(rel.value, content, turn);
      return Written(rel.value, content, !present);
    }

    method Store(path: string, content: string, disk: Disk) returns (ok: bool)
      modifies this`files
      ensures ok == disk.Writes?
      ensures files == match disk
                       case Writes => old(files)[path := File(content)]
                       case Refuses => old(files)
                       case Mangles(left) => old(files)[path := File(left)]
    {
      ok := disk.Writes?;
      match disk {
        case Writes => files := files[path := File(content)];
        case Refuses =>
        case Mangles(left) => files := files[path := File(left)];
      }
    }

    /** Registry.Invoke after Loop.invoke's guards. */
    method Invoke(call: ToolCall, w: World) returns (reply: Reply)
      requires Valid()
      modifies this`files, ledger
      ensures Outcome(View(), reply) == Execute(host, old(View()), call, w)
    {
      var r := Dispatch(call, w);
      reply := Told(w, r);
    }

    method Dispatch(call: ToolCall, w: World) returns (reply: Reply)
      requires Valid()
      modifies this`files, ledger
      ensures Outcome(View(), reply) == Perform(host, old(View()), call, w)
    {
      if w.denied.Some? { return Denied(w.denied.value); }
      match call.invocation {
        case Read(p, offset, limit) => reply := ReadFile(p, offset, limit);
        case Edit(p, o, n, all) => reply := EditFile(p, o, n, all, w.disk);
        case Write(p, c) => reply := WriteFile(p, c, w.disk);
        case Search(_) => reply := if w.finishes then Searched(w.found) else Failed(IoError);
        case Bash(_) =>
          files := w.afterwards;
          reply := if w.finishes then Ran(w.output) else Failed(IoError);
        case Unfit(_, tool) => reply := Failed(if tool.None? then UnknownTool else InvalidArguments);
      }
    }
  }
}
