/** What a shell command printed (internal/workspace/shell.go, internal/tools/bash.go):
    a bounded tail of the stream for the model, and a file that holds its beginning,
    created only once the tail has lost something. */
module ShellOutput {
  import opened Wrappers

  newtype byte = b: int | 0 <= b < 256
  type Bytes = seq<byte>

  const NEWLINE: byte := 10
  const DEFAULT_RING: nat := 32768

  /** Everything written, in order. */
  function Stream(writes: seq<Bytes>): Bytes {
    if writes == [] then [] else Stream(writes[..|writes| - 1]) + writes[|writes| - 1]
  }

  lemma StreamSnoc(writes: seq<Bytes>, p: Bytes)
    ensures Stream(writes + [p]) == Stream(writes) + p
  {
    assert (writes + [p])[..|writes|] == writes;
  }

  lemma StreamEmpty()
    ensures Stream([]) == []
  {
  }

  function Min(a: int, b: int): int {
    if a < b then a else b
  }

  function First(s: Bytes, n: nat): Bytes {
    s[..Min(n, |s|)]
  }

  function Last(s: Bytes, n: nat): Bytes {
    s[|s| - Min(n, |s|)..]
  }

  /** bytes.IndexByte. */
  function IndexByte(s: Bytes, c: byte): (r: Option<nat>)
    ensures r.Some? ==> r.value < |s| && s[r.value] == c && c !in s[..r.value]
    ensures r.None? ==> c !in s
  {
    if s == [] then None
    else if s[0] == c then Some(0)
    else
      match IndexByte(s[1..], c)
      case None => None
      case Some(i) => assert s[..i + 1] == [s[0]] + s[1..][..i]; Some(i + 1)
  }

  /** The one-shot form of the tail: where the shown part of a whole output starts.
      This is TruncateTail of internal/tools/truncate.go. */
  function TailStart(s: Bytes, limit: int): (cut: nat)
    ensures cut <= |s|
  {
    if limit <= 0 || |s| <= limit then 0
    else
      var cut := |s| - limit;
      match IndexByte(s[cut..], NEWLINE)
      case None => cut
      case Some(i) => if i < limit / 2 then cut + i + 1 else cut
  }

  /** What the cut leaves: nothing is lost from an output that fits; otherwise at most
      the limit and at least half of it is shown, and the cut is the earliest one that
      fits, unless a line starts in the first half of what fits, when it is the
      earliest of those. */
  lemma TailIsAWholeLineSuffix(s: Bytes, limit: nat)
    requires limit > 0
    ensures var cut := TailStart(s, limit);
            if |s| <= limit then cut == 0
            else
              && limit - limit / 2 <= |s| - cut <= limit
              && NEWLINE !in s[|s| - limit..if cut == |s| - limit then cut else cut - 1]
              && (cut == |s| - limit ==> NEWLINE !in s[cut..cut + limit / 2])
              && (cut != |s| - limit ==> s[cut - 1] == NEWLINE)
  {
    if |s| > limit {
      var from := |s| - limit;
      var i := IndexByte(s[from..], NEWLINE);
      if i.Some? {
        assert s[from..][..i.value] == s[from..from + i.value];
        if i.value >= limit / 2 {
          assert forall k | from <= k < from + limit / 2 :: s[k] == s[from..][..i.value][k - from];
        }
      } else {
        assert forall k | from <= k < |s| :: s[k] == s[from..][k - from];
      }
    }
  }

  /** Keeping the last n of a stream needs no more than the last n of what came
      before. */
  lemma LastAppend(s: Bytes, p: Bytes, n: nat)
    ensures Last(s + p, n) == Last(Last(s, n) + p, n)
  {
  }

  function RingSize(n: int): (size: nat)
    ensures size > 0
  {
    if n <= 0 then DEFAULT_RING else n
  }

  /** tailWriter. */
  class TailWriter {
    const n: nat
    var buf: Bytes
    var total: nat
    ghost var writes: seq<Bytes>

    ghost predicate Valid()
      reads this
    {
      n > 0 && buf == Last(Stream(writes), n) && total == |Stream(writes)|
    }

    constructor (size: int)
      ensures Valid() && n == RingSize(size) && writes == []
    {
      n := RingSize(size);
      buf := [];
      total := 0;
      writes := [];
    }

    /** After any sequence of writes the ring holds the last n bytes of all of them. */
    method Write(p: Bytes)
      requires Valid()
      modifies this
      ensures Valid() && writes == old(writes) + [p]
    {
      ghost var stream := Stream(writes);
      StreamSnoc(writes, p);
      LastAppend(stream, p, n);
      writes := writes + [p];
      total := total + |p|;
      if |p| >= n {
        buf := p[|p| - n..];
        assert Last(stream + p, n) == p[|p| - n..];
        return;
      }
      if |buf| + |p| > n {
        var drop := |buf| + |p| - n;
        buf := buf[drop..];
      }
      buf := buf + p;
    }

    /** The incremental tail is the one-shot tail of the whole stream. */
    method String() returns (shown: Bytes)
      requires Valid()
      ensures shown == Stream(writes)[TailStart(Stream(writes), n)..]
    {
      if total <= n {
        return buf;
      }
      var i := IndexByte(buf, NEWLINE);
      if i.Some? && i.value < n / 2 {
        return buf[i.value + 1..];
      }
      return buf;
    }

    method Truncated() returns (lost: bool)
      requires Valid()
      ensures lost <==> |Stream(writes)| > n
    {
      lost := total > |buf|;
    }
  }

  /** What the disk does during one write: whether a file can be created, how many
      bytes it takes, and whether it reports an error though it took them all. */
  datatype Disk = Disk(creates: bool, takes: nat, complains: bool)

  predicate Healthy(d: Disk, p: Bytes, held: nat) {
    d.creates && d.takes >= held + |p| && !d.complains
  }

  /** The overflow file of a run on a disk that never fails. */
  function Spilled(writes: seq<Bytes>, threshold: int, limit: int): Option<Bytes> {
    if limit > 0 && writes != [] && |Stream(writes)| > threshold then Some(First(Stream(writes), limit)) else None
  }

  /** spillFile. */
  class SpillFile {
    const threshold: int
    const limit: int
    var buf: Bytes
    var written: nat
    var file: Option<Bytes>
    var failed: bool
    ghost var writes: seq<Bytes>
    ghost var healthy: bool

    ghost predicate Valid()
      reads this
    {
      && (file.Some? ==> limit > 0 && file.value <= Stream(writes) && written == |file.value| <= limit)
      && (limit > 0 && file.None? && !failed ==>
            buf == Stream(writes) && (writes == [] || |buf| <= threshold) && written == 0)
      && (limit <= 0 ==> file.None?)
      && (healthy ==> !failed && file == Spilled(writes, threshold, limit))
      && (file.Some? && !failed ==> file.value == First(Stream(writes), limit))
    }

    constructor (threshold: int, limit: int)
      ensures Valid() && this.threshold == threshold && this.limit == limit && writes == [] && healthy
    {
      this.threshold := threshold;
      this.limit := limit;
      buf, written, file, failed := [], 0, None, false;
      writes, healthy := [], true;
    }

    /** Whatever the disk does, the file holds a prefix of the stream no longer than
        the limit (Valid); on a disk that has not failed it is exactly Spilled. */
    method Write(p: Bytes, disk: Disk)
      requires Valid()
      modifies this
      ensures Valid() && writes == old(writes) + [p]
      ensures healthy == (old(healthy) && Healthy(disk, p, old(|Stream(writes)|)))
    {
      hide Stream;
      ghost var stream := Stream(writes);
      StreamSnoc(writes, p);
      if writes == [] { assert stream == [] by { StreamEmpty(); } }
      writes := writes + [p];
      healthy := healthy && Healthy(disk, p, |stream|);
      if failed || limit <= 0 {
        if file.Some? { assert file.value <= stream <= stream + p; }
        return;
      }
      if file.None? {
        buf := buf + p;
        if |buf| <= threshold {
          return;
        }
        if !disk.creates {
          failed := true;
          return;
        }
        file := Some([]);
        assert buf == [] + buf == stream + p;
        WriteOut(buf, [], disk);
        buf := [];
        return;
      }
      WriteOut(p, stream, disk);
    }

    /** Appends as much of p as the limit and the disk allow. */
    method WriteOut(p: Bytes, ghost before: Bytes, disk: Disk)
      requires limit > 0 && file.Some? && !failed
      requires written == |file.value| && file.value == First(before, limit)
      modifies this`written, this`file, this`failed
      ensures file.Some? && written == |file.value| <= limit && file.value <= before + p
      ensures !failed ==> file.value == First(before + p, limit)
      ensures disk.takes >= |p| && !disk.complains ==> !failed
    {
      var remaining := limit - written;
      if remaining <= 0 {
        return;
      }
      var q := if |p| > remaining then p[..remaining] else p;
      var n := Min(|q|, disk.takes);
      file := Some(file.value + q[..n]);
      written := written + n;
      if disk.complains || n < |q| {
        failed := true;
      }
    }
  }

  /** What comes back from a command. */
  datatype Output = Output(shown: Bytes, total: nat, truncated: bool, spill: Option<Bytes>)

  ghost predicate AllHealthy(writes: seq<Bytes>, disk: seq<Disk>)
    requires |disk| == |writes|
  {
    if writes == [] then true
    else
      var k := |writes| - 1;
      AllHealthy(writes[..k], disk[..k]) && Healthy(disk[k], writes[k], |Stream(writes[..k])|)
  }

  /** LocalShell.Run, as far as output goes: every write of the command reaches the
      ring and then the overflow file, whose threshold is the ring's size as
      configured. */
  method Capture(writes: seq<Bytes>, tailBytes: int, spillBytes: int, disk: seq<Disk>) returns (out: Output)
    requires |disk| == |writes|
    ensures var s := Stream(writes);
            && out.shown == s[TailStart(s, RingSize(tailBytes))..] && out.total == |s|
            && (out.truncated <==> |s| > RingSize(tailBytes))
            && (out.spill.Some? ==> out.spill.value <= s && |out.spill.value| <= spillBytes)
            && (AllHealthy(writes, disk) ==> out.spill == Spilled(writes, tailBytes, spillBytes))
  {
    hide Stream, TailStart, Spilled, First, Last;
    var tail := new TailWriter(tailBytes);
    var spill := new SpillFile(tailBytes, spillBytes);
    var i := 0;
    while i < |writes|
      invariant 0 <= i <= |writes|
      invariant tail.Valid() && spill.Valid()
      invariant tail.writes == writes[..i] && spill.writes == writes[..i]
      invariant spill.healthy == AllHealthy(writes[..i], disk[..i])
    {
      assert writes[..i + 1] == writes[..i] + [writes[i]] && writes[..i + 1][..i] == writes[..i];
      assert disk[..i + 1][..i] == disk[..i];
      tail.Write(writes[i]);
      spill.Write(writes[i], disk[i]);
      i := i + 1;
    }
    assert writes[..i] == writes && disk[..i] == disk;
    var shown := tail.String();
    var lost := tail.Truncated();
    out := Output(shown, tail.total, lost, spill.file);
  }

  /** "There is a file to page through" and "something was cut" are the same thing for
      every output exactly when the configured tail size is positive, which the
      configuration check demands (internal/config/config.go:475). */
  lemma SpillMatchesTruncationIff(tailBytes: int, spillBytes: int)
    requires spillBytes > 0
    ensures (forall writes: seq<Bytes> ::
               Spilled(writes, tailBytes, spillBytes).Some? <==> |Stream(writes)| > RingSize(tailBytes))
            <==> tailBytes > 0
  {
    if tailBytes > 0 {
      assert forall writes: seq<Bytes> :: writes == [] ==> Stream(writes) == [];
    } else {
      var writes: seq<Bytes> := [] + [[NEWLINE]];
      StreamSnoc([], [NEWLINE]);
      assert Spilled(writes, tailBytes, spillBytes).Some? && |Stream(writes)| <= RingSize(tailBytes);
    }
  }

  /** Together the tail and the file lose nothing while the stream is no longer than
      the two of them: every byte is in one of them at its own position. */
  lemma TailAndSpillCover(writes: seq<Bytes>, tailBytes: nat, spillBytes: nat)
    requires tailBytes > 0 && spillBytes > 0
    requires |Stream(writes)| <= spillBytes + (tailBytes - tailBytes / 2)
    ensures var s := Stream(writes);
            var cut := TailStart(s, tailBytes);
            match Spilled(writes, tailBytes, spillBytes)
            case None => cut == 0
            case Some(file) => cut <= |file| && file[..cut] + s[cut..] == s
  {
    var s := Stream(writes);
    TailIsAWholeLineSuffix(s, tailBytes);
    if writes == [] { assert s == []; }
  }
}
