/** The observation ledger (internal/workspace/ledger.go): what a session has seen
    of each path, and whether that still entitles it to change the path. */
module Ledgers {
  import opened Text

  /** A SHA-256 sum.  The function that computes it is a parameter of the model. */
  type Digest = nat
  type Hash = string -> Digest

  datatype Observation = Observation(
    path: string,
    present: bool,
    digest: Digest,
    size: nat,
    turn: int,
    stale: bool)

  type Entries = map<string, Observation>

  /** Why a modification may or may not go ahead. */
  datatype Verdict =
    | Granted
    | NeverRead
    | SummarisedAway
    | AppearedSince
    | DeletedSince
    | ChangedSince(was: nat, now: nat)

  function Seen(sha: Hash, path: string, content: string, turn: int): Observation {
    Observation(path, true, sha(content), ByteLen(content), turn, false)
  }

  function SeenAbsent(path: string, turn: int): Observation {
    Observation(path, false, 0, 0, turn, false)
  }

  function StaledBefore(es: Entries, turn: int): Entries {
    map p | p in es :: if es[p].turn < turn then es[p].(stale := true) else es[p]
  }

  function Staled(es: Entries, paths: seq<string>): Entries {
    map p | p in es :: if p in paths then es[p].(stale := true) else es[p]
  }

  function Verdicts(sha: Hash, es: Entries, path: string, current: string, exists_: bool): Verdict {
    if path !in es then (if exists_ then NeverRead else Granted)
    else
      var obs := es[path];
      if obs.stale then SummarisedAway
      else if !obs.present && !exists_ then Granted
      else if !obs.present then AppearedSince
      else if !exists_ then DeletedSince
      else if sha(current) != obs.digest then ChangedSince(obs.size, ByteLen(current))
      else Granted
  }

  /** An existing file may be changed exactly when the ledger holds an observation
      of it that is still backed and whose digest is that of the bytes now there;
      an absent one, exactly when nothing says it should be there. */
  lemma GrantedIff(sha: Hash, es: Entries, path: string, current: string, exists_: bool)
    ensures exists_ ==>
              (Verdicts(sha, es, path, current, exists_) == Granted <==>
               path in es && !es[path].stale && es[path].present && es[path].digest == sha(current))
    ensures !exists_ ==>
              (Verdicts(sha, es, path, current, exists_) == Granted <==>
               (path in es ==> !es[path].stale && !es[path].present))
  {
  }

  /** And each refusal says why. */
  lemma RefusalsAre(sha: Hash, es: Entries, path: string, current: string, exists_: bool)
    ensures var v := Verdicts(sha, es, path, current, exists_);
            var live := path in es && !es[path].stale;
            && (v == NeverRead <==> path !in es && exists_)
            && (v == SummarisedAway <==> path in es && es[path].stale)
            && (v == AppearedSince <==> live && !es[path].present && exists_)
            && (v == DeletedSince <==> live && es[path].present && !exists_)
            && (v.ChangedSince? <==> live && es[path].present && exists_ && sha(current) != es[path].digest)
            && (v.ChangedSince? ==> v == ChangedSince(es[path].size, ByteLen(current)))
  {
  }

  /** The ledger when all entries but the pending ones have been looked at. */
  ghost function StaledSoFar(es: Entries, turn: int, pending: set<string>): Entries {
    map p | p in es :: if p !in pending && es[p].turn < turn then es[p].(stale := true) else es[p]
  }

  ghost function LiveBefore(es: Entries, turn: int): set<string> {
    set p | p in es && es[p].turn < turn && !es[p].stale
  }

  ghost function LiveAmong(es: Entries, paths: seq<string>): set<string> {
    set p | p in es && p in paths && !es[p].stale
  }

  lemma StaleOne(es: Entries, turn: int, pending: set<string>, path: string)
    requires path in pending && path in es
    ensures var now, next := StaledSoFar(es, turn, pending), StaledSoFar(es, turn, pending - {path});
            var live := LiveBefore(es, turn);
            && path in now && now[path] == es[path]
            && next == (if es[path].turn < turn && !es[path].stale then now[path := es[path].(stale := true)] else now)
            && |live - (pending - {path})|
               == |live - pending| + if es[path].turn < turn && !es[path].stale then 1 else 0
  {
    var live := LiveBefore(es, turn);
    assert live - (pending - {path}) == (live - pending) + if path in live then {path} else {};
  }

  lemma AllOrNoneStaled(es: Entries, turn: int)
    ensures StaledSoFar(es, turn, es.Keys) == es && LiveBefore(es, turn) - es.Keys == {}
    ensures StaledSoFar(es, turn, {}) == StaledBefore(es, turn) && LiveBefore(es, turn) - {} == LiveBefore(es, turn)
  {
  }

  lemma StaleNext(es: Entries, paths: seq<string>, i: nat)
    requires i < |paths|
    ensures var now, path := Staled(es, paths[..i]), paths[i];
            && Staled(es, paths[..i + 1])
               == (if path in now && !now[path].stale then now[path := now[path].(stale := true)] else now)
            && |LiveAmong(es, paths[..i + 1])|
               == |LiveAmong(es, paths[..i])| + if path in now && !now[path].stale then 1 else 0
  {
    var path := paths[i];
    assert paths[..i + 1] == paths[..i] + [path];
    hide Staled, LiveAmong;
    StaleMore(es, paths[..i], path, paths[..i + 1]);
  }

  lemma StaleMore(es: Entries, front: seq<string>, path: string, more: seq<string>)
    requires forall p :: p in more <==> p in front || p == path
    ensures var now := Staled(es, front);
            && Staled(es, more)
               == (if path in now && !now[path].stale then now[path := now[path].(stale := true)] else now)
            && |LiveAmong(es, more)| == |LiveAmong(es, front)| + if path in now && !now[path].stale then 1 else 0
  {
    if path in Staled(es, front) && !Staled(es, front)[path].stale {
      assert path !in front && path !in LiveAmong(es, front);
      assert LiveAmong(es, more) == LiveAmong(es, front) + {path};
    } else {
      assert LiveAmong(es, more) == LiveAmong(es, front);
    }
  }

  class Ledger {
    var entries: Entries
    const sha: Hash

    constructor (sha: Hash)
      ensures entries == map[] && this.sha == sha
    {
      entries := map[];
      this.sha := sha;
    }

    method Observe(path: string, content: string, turn: int)
      modifies this
      ensures entries == old(entries)[path := Seen(sha, path, content, turn)]
    {
      entries := entries[path := Observation(path, true, sha(content), ByteLen(content), turn, false)];
    }

    method ObserveAbsent(path: string, turn: int)
      modifies this
      ensures entries == old(entries)[path := SeenAbsent(path, turn)]
    {
      entries := entries[path := Observation(path, false, 0, 0, turn, false)];
    }

    /** Visits the entries in whatever order the map yields them. */
    method MarkStaleBefore(turn: int) returns (n: nat)
      modifies this
      ensures entries == StaledBefore(old(entries), turn)
      ensures n == |LiveBefore(old(entries), turn)|
    {
      hide *;
      n := 0;
      var pending := entries.Keys;
      ghost var before := entries;
      AllOrNoneStaled(before, turn);
      while pending != {}
        invariant pending <= before.Keys && entries == StaledSoFar(before, turn, pending)
        invariant n == |LiveBefore(before, turn) - pending|
        decreases pending
      {
        var path :| path in pending;
        StaleOne(before, turn, pending, path);
        var obs := entries[path];
        if obs.turn < turn && !obs.stale {
          entries := entries[path := obs.(stale := true)];
          n := n + 1;
        }
        pending := pending - {path};
      }
    }

    /** Each listed path counts once, however often it is listed. */
    method MarkStale(paths: seq<string>) returns (n: nat)
      modifies this
      ensures entries == Staled(old(entries), paths)
      ensures n == |LiveAmong(old(entries), paths)|
    {
      n := 0;
      ghost var before := entries;
      assert LiveAmong(before, []) == {};
      for i := 0 to |paths|
        invariant entries == Staled(before, paths[..i])
        invariant n == |LiveAmong(before, paths[..i])|
      {
        hide *;
        StaleNext(before, paths, i);
        var path := paths[i];
        if path in entries && !entries[path].stale {
          entries := entries[path := entries[path].(stale := true)];
          n := n + 1;
        }
      }
      assert paths[..|paths|] == paths;
    }

    method Authorize(path: string, current: string, exists_: bool) returns (v: Verdict)
      ensures v == Verdicts(sha, entries, path, current, exists_)
    {
      if path !in entries && !exists_ { return Granted; }
      if path !in entries { return NeverRead; }
      var obs := entries[path];
      if obs.stale { return SummarisedAway; }
      if !obs.present && !exists_ { return Granted; }
      if !obs.present && exists_ { return AppearedSince; }
      if obs.present && !exists_ { return DeletedSince; }
      if sha(current) != obs.digest { return ChangedSince(obs.size, ByteLen(current)); }
      return Granted;
    }
  }
}
