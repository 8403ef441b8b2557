/** A streamed answer, from the server that writes it (internal/server/chat.go,
    internal/server/stream.go) to a client that adds up what it reads. */
module AnswerStream {
  import opened Wrappers
  import opened Text
  import opened Deltas
  import opened EventStream

  const CONTENT_CHUNK_RUNES := 48

  /** JSON, as far as streams need it: encoding a chunk, and decoding it again. */
  datatype Codec = Codec(enc: Chunk -> string, dec: string -> Chunk)

  function OneChoice(identity: Identity, role: string, content: Option<string>, harness: string,
                     finish: Option<string>): Chunk {
    Chunk(identity, [Choice(0, role, content, None, [], harness, finish)], None)
  }

  function RoleChunk(identity: Identity): Chunk {
    OneChoice(identity, "assistant", None, "", None)
  }

  function EventChunks(identity: Identity, events: seq<string>): seq<Chunk> {
    seq(|events|, k requires 0 <= k < |events| => OneChoice(identity, "", None, events[k], None))
  }

  function ContentChunks(identity: Identity, pieces: seq<string>): seq<Chunk> {
    seq(|pieces|, k requires 0 <= k < |pieces| => OneChoice(identity, "", Some(pieces[k]), "", None))
  }

  function FinishChunks(identity: Identity, reason: string, usage: Option<int>): seq<Chunk> {
    [OneChoice(identity, "", None, "", Some(reason))] + if usage.Some? then [Chunk(identity, [], usage)] else []
  }

  /** Everything streamAgentRun sends for a run that ends well. */
  function AnswerChunks(identity: Identity, events: seq<string>, pieces: seq<string>, reason: string,
                        usage: Option<int>): seq<Chunk> {
    [RoleChunk(identity)] + EventChunks(identity, events) + ContentChunks(identity, pieces)
    + FinishChunks(identity, reason, usage)
  }

  /** All a client adds up from a stream: what its accumulator holds. */
  datatype Reading = Reading(
    identity: Identity,
    role: string,
    finish: Option<string>,
    usage: Option<int>,
    content: string,
    reasoning: string,
    deltas: seq<Delta>)

  const UNREAD := Reading(Identity("", "", 0, "", ""), "", None, None, "", "", [])

  function ReadOn(r: Reading, c: Chunk): Reading {
    Reading(Identified(r.identity, c.identity), RoleAfter(r.role, c.choices), FinishAfter(r.finish, c.choices),
            if c.usage.Some? then c.usage else r.usage, r.content + TextOf(c.choices),
            r.reasoning + ReasoningOf(c.choices), r.deltas + DeltasOf(c.choices))
  }

  function ReadAll(r: Reading, chunks: seq<Chunk>): Reading {
    if chunks == [] then r else ReadOn(ReadAll(r, chunks[..|chunks| - 1]), chunks[|chunks| - 1])
  }

  function Encoded(codec: Codec, chunks: seq<Chunk>): seq<string> {
    seq(|chunks|, k requires 0 <= k < |chunks| => codec.enc(chunks[k]))
  }

  function Decoded(codec: Codec, payloads: seq<string>): seq<Chunk> {
    seq(|payloads|, k requires 0 <= k < |payloads| => codec.dec(payloads[k]))
  }

  lemma {:induction false} ReadAllAppend(r: Reading, a: seq<Chunk>, b: seq<Chunk>)
    ensures ReadAll(r, a + b) == ReadAll(ReadAll(r, a), b)
    decreases b
  {
    if b == [] {
      assert a + b == a;
    } else {
      var init := b[..|b| - 1];
      assert (a + b)[..|a + b| - 1] == a + init;
      ReadAllAppend(r, a, init);
    }
  }

  lemma ReadOne(r: Reading, c: Chunk)
    ensures ReadAll(r, [c]) == ReadOn(r, c)
  {
    assert [c][..0] == [];
  }

  /** What one chunk of an answer does to a client that has read the stream's identity. */
  lemma OneChoiceRead(r: Reading, identity: Identity, role: string, content: Option<string>, harness: string,
                      finish: Option<string>)
    ensures ReadOn(r, OneChoice(identity, role, content, harness, finish))
            == r.(identity := Identified(r.identity, identity),
                  role := if role == "" then r.role else role,
                  content := r.content + if content.Some? then content.value else "",
                  finish := if r.finish.None? then finish else r.finish)
  {
    var c := Choice(0, role, content, None, [], harness, finish);
    assert [c][..0] == [] && TextOf([]) == ReasoningOf([]) == "" && DeltasOf([]) == [];
    assert RoleAfter(r.role, []) == r.role && FinishAfter(r.finish, []) == r.finish;
    assert "" + OwnText(c) == OwnText(c) && r.reasoning + "" == r.reasoning && r.deltas + [] == r.deltas;
  }

  lemma {:induction false} PiecesRead(r: Reading, identity: Identity, pieces: seq<string>)
    requires Identified(r.identity, identity) == r.identity
    ensures ReadAll(r, ContentChunks(identity, pieces)) == r.(content := r.content + Concat(pieces))
  {
    hide ReadOn, OneChoice, Identified;
    if pieces == [] {
      assert r.content + "" == r.content;
    } else {
      var init, last := pieces[..|pieces| - 1], pieces[|pieces| - 1];
      PiecesRead(r, identity, init);
      assert ContentChunks(identity, pieces)[..|init|] == ContentChunks(identity, init);
      OneChoiceRead(r.(content := r.content + Concat(init)), identity, "", Some(last), "", None);
      ConcatSnoc(init, last);
      assert init + [last] == pieces && r.content + Concat(init) + last == r.content + (Concat(init) + last);
    }
  }

  lemma {:induction false} EventsRead(r: Reading, identity: Identity, events: seq<string>)
    requires Identified(r.identity, identity) == r.identity
    ensures ReadAll(r, EventChunks(identity, events)) == r
  {
    hide ReadOn, OneChoice, Identified;
    if events != [] {
      var init := events[..|events| - 1];
      EventsRead(r, identity, init);
      assert EventChunks(identity, events)[..|init|] == EventChunks(identity, init);
      OneChoiceRead(r, identity, "", None, events[|init|], None);
      assert r.content + "" == r.content;
    }
  }

  lemma FinishRead(r: Reading, identity: Identity, reason: string, usage: Option<int>)
    requires Identified(r.identity, identity) == r.identity && r.finish.None? && r.usage.None?
    ensures ReadAll(r, FinishChunks(identity, reason, usage)) == r.(finish := Some(reason), usage := usage)
  {
    hide OneChoice, Identified;
    var c := OneChoice(identity, "", None, "", Some(reason));
    OneChoiceRead(r, identity, "", None, "", Some(reason));
    ReadOne(r, c);
    assert r.content + "" == r.content;
    if usage.Some? {
      UsageRead(r.(finish := Some(reason)), identity, usage);
      ReadAllAppend(r, [c], [Chunk(identity, [], usage)]);
    } else {
      assert FinishChunks(identity, reason, usage) == [c];
    }
  }

  lemma UsageRead(r: Reading, identity: Identity, usage: Option<int>)
    requires Identified(r.identity, identity) == r.identity && usage.Some?
    ensures ReadAll(r, [Chunk(identity, [], usage)]) == r.(usage := usage)
  {
    ReadOne(r, Chunk(identity, [], usage));
    assert r.content + "" == r.content && r.reasoning + "" == r.reasoning && r.deltas + [] == r.deltas;
  }

  lemma IdentityIsKept(identity: Identity)
    ensures Identified(UNREAD.identity, identity) == identity && Identified(identity, identity) == identity
  {
  }

  /** A client that knows whose the stream is, and that an assistant speaks. */
  function Begun(identity: Identity): Reading {
    UNREAD.(identity := identity, role := "assistant")
  }

  lemma RoleIsRead(identity: Identity)
    ensures ReadAll(UNREAD, [RoleChunk(identity)]) == Begun(identity)
  {
    hide ReadAll, ReadOn, OneChoice, Identified;
    IdentityIsKept(identity);
    OneChoiceRead(UNREAD, identity, "assistant", None, "", None);
    ReadOne(UNREAD, RoleChunk(identity));
  }

  lemma BodyIsRead(identity: Identity, events: seq<string>, pieces: seq<string>, reason: string, usage: Option<int>)
    ensures ReadAll(Begun(identity), EventChunks(identity, events)) == Begun(identity)
    ensures var r := ReadAll(Begun(identity), ContentChunks(identity, pieces));
            && r == Begun(identity).(content := Concat(pieces))
            && ReadAll(r, FinishChunks(identity, reason, usage)) == r.(finish := Some(reason), usage := usage)
  {
    hide ReadAll, EventChunks, ContentChunks, FinishChunks, Concat, Identified;
    IdentityIsKept(identity);
    EventsRead(Begun(identity), identity, events);
    PiecesRead(Begun(identity), identity, pieces);
    assert "" + Concat(pieces) == Concat(pieces);
    FinishRead(Begun(identity).(content := Concat(pieces)), identity, reason, usage);
  }

  /** What a client makes of a whole answer: an assistant's text without tool calls, with
      the finish reason and the usage as they were given.  Of everything the server sends,
      only the pieces of the answer are text. */
  lemma AnswerIsRead(identity: Identity, events: seq<string>, pieces: seq<string>, reason: string, usage: Option<int>)
    ensures ReadAll(UNREAD, AnswerChunks(identity, events, pieces, reason, usage))
            == Reading(identity, "assistant", Some(reason), usage, Concat(pieces), "", [])
  {
    hide ReadAll, EventChunks, ContentChunks, FinishChunks, RoleChunk, Concat;
    var role, shown := [RoleChunk(identity)], EventChunks(identity, events);
    var content, finish := ContentChunks(identity, pieces), FinishChunks(identity, reason, usage);
    RoleIsRead(identity);
    BodyIsRead(identity, events, pieces, reason, usage);
    ReadAllAppend(UNREAD, role, shown);
    ReadAllAppend(UNREAD, role + shown, content);
    ReadAllAppend(UNREAD, role + shown + content, finish);
  }

  /** Whatever chunks are sent, with keepalives anywhere between them: the client reads
      back those chunks. */
  lemma ChunksComeBack(codec: Codec, chunks: seq<Chunk>, frames: seq<Frame>)
    requires forall c | c in chunks :: codec.dec(codec.enc(c)) == c
    requires Payloads(frames) == Encoded(codec, chunks)
    requires forall k | 0 <= k < |frames| :: Printable(frames[k])
    ensures var read := Decode(Auto, "", GoLines("", Print(frames)));
            read.Some? && Decoded(codec, read.value) == chunks
  {
    hide *;
    DecodedEncoded(codec, chunks);
    PrintedFramesComeBack(Auto, frames);
  }

  lemma DecodedEncoded(codec: Codec, chunks: seq<Chunk>)
    requires forall c | c in chunks :: codec.dec(codec.enc(c)) == c
    ensures Decoded(codec, Encoded(codec, chunks)) == chunks
  {
    forall k | 0 <= k < |chunks| ensures codec.dec(codec.enc(chunks[k])) == chunks[k] {
      assert chunks[k] in chunks;
    }
  }

  /** A whole stream as the server writes it: the role, any events, the answer in pieces,
      the finish and perhaps the usage.  What a client reads back adds up to the answer, cut
      as it may be, with its finish reason and its usage. */
  lemma AnswerComesBack(codec: Codec, identity: Identity, events: seq<string>, pieces: seq<string>, reason: string,
                        usage: Option<int>, frames: seq<Frame>)
    requires forall c | c in AnswerChunks(identity, events, pieces, reason, usage) :: codec.dec(codec.enc(c)) == c
    requires Payloads(frames) == Encoded(codec, AnswerChunks(identity, events, pieces, reason, usage))
    requires forall k | 0 <= k < |frames| :: Printable(frames[k])
    ensures var read := Decode(Auto, "", GoLines("", Print(frames)));
            read.Some?
            && ReadAll(UNREAD, Decoded(codec, read.value))
               == Reading(identity, "assistant", Some(reason), usage, Concat(pieces), "", [])
  {
    ChunksComeBack(codec, AnswerChunks(identity, events, pieces, reason, usage), frames);
    AnswerIsRead(identity, events, pieces, reason, usage);
  }

  // ---- The two ends ----

  function Frames(payloads: seq<string>): seq<Frame> {
    seq(|payloads|, k requires 0 <= k < |payloads| => Data(payloads[k]))
  }

  function Keepalives(n: nat): seq<Frame> {
    seq(n, k => Comment("working"))
  }

  lemma PayloadsCons(f: Frame, rest: seq<Frame>)
    ensures Payloads([f] + rest) == (if f.Data? then [f.payload] else []) + Payloads(rest)
    ensures Payloads([]) == []
  {
    assert ([f] + rest)[1..] == rest;
  }

  lemma {:induction false} PayloadsAppend(a: seq<Frame>, b: seq<Frame>)
    ensures Payloads(a + b) == Payloads(a) + Payloads(b)
    decreases a
  {
    hide *;
    if a == [] {
      PayloadsCons(Comment(""), []);
      assert a + b == b && [] + Payloads(b) == Payloads(b);
    } else {
      var f, rest := a[0], a[1..];
      PayloadsAppend(rest, b);
      PayloadsCons(f, rest);
      PayloadsCons(f, rest + b);
      assert a == [f] + rest && a + b == [f] + (rest + b);
      var mine := if f.Data? then [f.payload] else [];
      assert mine + Payloads(rest) + Payloads(b) == mine + (Payloads(rest) + Payloads(b));
    }
  }

  lemma {:induction false} KeepalivesCarryNothing(n: nat)
    ensures Payloads(Keepalives(n)) == []
  {
    if n > 0 {
      assert Keepalives(n)[1..] == Keepalives(n - 1);
      KeepalivesCarryNothing(n - 1);
    }
  }

  /** Comments that end where their line does. */
  predicate CommentsFit(frames: seq<Frame>) {
    forall f | f in frames :: f.Comment? ==> OneLine(f.text)
  }

  lemma FramesSnoc(frames: seq<Frame>, n: nat, payloads: seq<string>)
    ensures Payloads(frames + Keepalives(n) + Frames(payloads)) == Payloads(frames) + payloads
    ensures CommentsFit(frames) ==> CommentsFit(frames + Keepalives(n) + Frames(payloads))
  {
    assert OneLine("working");
    KeepalivesCarryNothing(n);
    FramesCarry(payloads);
    PayloadsAppend(frames, Keepalives(n));
    PayloadsAppend(frames + Keepalives(n), Frames(payloads));
    assert Payloads(frames) + [] == Payloads(frames);
  }

  lemma EncodedAppend(codec: Codec, a: seq<Chunk>, b: seq<Chunk>)
    ensures Encoded(codec, a + b) == Encoded(codec, a) + Encoded(codec, b)
  {
  }

  /** The frames of streamAgentRun for a run that ends well.  ticks(k) keepalives fall
      before the k-th event, and the rest before the answer. */
  method AnswerFrames(codec: Codec, identity: Identity, events: seq<string>, ticks: nat -> nat,
                      text: string, reason: string, usage: Option<int>)
    returns (frames: seq<Frame>, pieces: seq<string>)
    ensures Concat(pieces) == text
    ensures forall k | 0 <= k < |pieces| :: pieces[k] != "" && |pieces[k]| <= CONTENT_CHUNK_RUNES
    ensures Payloads(frames) == Encoded(codec, AnswerChunks(identity, events, pieces, reason, usage))
    ensures CommentsFit(frames)
  {
    var role, shown := RoleChunk(identity), EventChunks(identity, events);
    frames := Frames(Encoded(codec, [role]));
    FramesCarry(Encoded(codec, [role]));
    assert [role] + shown[..0] == [role];
    assert CommentsFit(frames);
    hide Encoded, Frames, Keepalives, Payloads, EventChunks, RoleChunk, CommentsFit;
    for k := 0 to |shown|
      invariant Payloads(frames) == Encoded(codec, [role] + shown[..k]) && CommentsFit(frames)
    {
      FramesSnoc(frames, ticks(k), Encoded(codec, [shown[k]]));
      EncodedAppend(codec, [role] + shown[..k], [shown[k]]);
      assert [role] + shown[..k + 1] == [role] + shown[..k] + [shown[k]];
      frames := frames + Keepalives(ticks(k)) + Frames(Encoded(codec, [shown[k]]));
    }
    assert shown[..|shown|] == shown;
    pieces := SplitRunes(text, CONTENT_CHUNK_RUNES);
    var rest := ContentChunks(identity, pieces) + FinishChunks(identity, reason, usage);
    FramesSnoc(frames, ticks(|shown|), Encoded(codec, rest));
    EncodedAppend(codec, [role] + shown, rest);
    assert AnswerChunks(identity, events, pieces, reason, usage) == [role] + shown + rest;
    frames := frames + Keepalives(ticks(|shown|)) + Frames(Encoded(codec, rest));
  }

  /** JSON does for these chunks what a stream needs: each is one printable line, and can be
      read back. */
  ghost predicate Carries(codec: Codec, chunks: seq<Chunk>) {
    forall c | c in chunks :: codec.dec(codec.enc(c)) == c && Printable(Data(codec.enc(c)))
  }

  lemma {:induction false} DataIsPayload(frames: seq<Frame>, k: nat)
    requires k < |frames| && frames[k].Data?
    ensures frames[k].payload in Payloads(frames)
    decreases frames
  {
    if k > 0 { DataIsPayload(frames[1..], k - 1); }
  }

  lemma FramesPrint(codec: Codec, chunks: seq<Chunk>, frames: seq<Frame>)
    requires Carries(codec, chunks) && CommentsFit(frames) && Payloads(frames) == Encoded(codec, chunks)
    ensures forall k | 0 <= k < |frames| :: Printable(frames[k])
  {
    hide OneLine, Solid, Payloads, ByteLen;
    forall k | 0 <= k < |frames| ensures Printable(frames[k]) {
      if frames[k].Data? {
        DataIsPayload(frames, k);
        var i :| 0 <= i < |chunks| && codec.enc(chunks[i]) == frames[k].payload;
        assert chunks[i] in chunks;
      }
    }
  }

  /** streamAgentRun over a connection that takes everything.  From end to end: what is
      written decodes, and a client adds it up to the text and its finish. */
  method StreamAnswer(stream: SseStream, codec: Codec, identity: Identity, events: seq<string>, ticks: nat -> nat,
                      text: string, reason: string, usage: Option<int>)
    returns (frames: seq<Frame>, pieces: seq<string>)
    requires !stream.failed
    modifies stream
    ensures !stream.failed && stream.written == old(stream.written) + Print(frames)
    ensures Concat(pieces) == text
    ensures forall k | 0 <= k < |pieces| :: pieces[k] != "" && |pieces[k]| <= CONTENT_CHUNK_RUNES
    ensures Payloads(frames) == Encoded(codec, AnswerChunks(identity, events, pieces, reason, usage))
            && CommentsFit(frames)
    ensures Carries(codec, AnswerChunks(identity, events, pieces, reason, usage)) ==>
              var read := Decode(Auto, "", GoLines("", Print(frames)));
              read.Some?
              && ReadAll(UNREAD, Decoded(codec, read.value))
                 == Reading(identity, "assistant", Some(reason), usage, text, "", [])
  {
    hide *;
    frames, pieces := AnswerFrames(codec, identity, events, ticks, text, reason, usage);
    stream.SendAll(frames);
    ghost var chunks := AnswerChunks(identity, events, pieces, reason, usage);
    if Carries(codec, chunks) { WrittenComesBack(codec, identity, events, pieces, reason, usage, frames); }
  }

  lemma WrittenComesBack(codec: Codec, identity: Identity, events: seq<string>, pieces: seq<string>, reason: string,
                         usage: Option<int>, frames: seq<Frame>)
    requires Carries(codec, AnswerChunks(identity, events, pieces, reason, usage)) && CommentsFit(frames)
    requires Payloads(frames) == Encoded(codec, AnswerChunks(identity, events, pieces, reason, usage))
    ensures var read := Decode(Auto, "", GoLines("", Print(frames)));
            read.Some?
            && ReadAll(UNREAD, Decoded(codec, read.value))
               == Reading(identity, "assistant", Some(reason), usage, Concat(pieces), "", [])
  {
    hide Decode, GoLines, Print, ReadAll, AnswerChunks, Printable;
    FramesPrint(codec, AnswerChunks(identity, events, pieces, reason, usage), frames);
    AnswerComesBack(codec, identity, events, pieces, reason, usage, frames);
  }

  lemma {:induction false} FramesCarry(payloads: seq<string>)
    ensures Payloads(Frames(payloads)) == payloads
  {
    if payloads != [] {
      assert Frames(payloads)[1..] == Frames(payloads[1..]);
      FramesCarry(payloads[1..]);
      assert payloads == [payloads[0]] + payloads[1..];
    }
  }

  /** A client that feeds every chunk it reads to an accumulator holds what reading them
      comes to. */
  method ReadAnswer(chunks: seq<Chunk>) returns (acc: StreamAccumulator, ghost t: Trace)
    ensures fresh(acc) && fresh(acc.tools) && acc.tools.Valid()
    ensures Holding(acc, Fragments(t)) == ReadAll(UNREAD, chunks)
    ensures Resolved(map[], t) && acc.tools.byIndex == Fed(map[], t)
  {
    acc := new StreamAccumulator();
    t := Start;
    var k := 0;
    while k < |chunks|
      invariant 0 <= k <= |chunks| && fresh(acc) && fresh(acc.tools) && acc.tools.Valid()
      invariant Holding(acc, Fragments(t)) == ReadAll(UNREAD, chunks[..k])
      invariant Resolved(map[], t) && acc.tools.byIndex == Fed(map[], t)
    {
      hide Fragments, Resolved, Fed, TextOf, ReasoningOf, DeltasOf, RoleAfter, FinishAfter, Identified;
      assert chunks[..k + 1][..k] == chunks[..k];
      ghost var more := acc.Add(chunks[k]);
      FedThen(map[], t, more);
      t := Then(t, more);
      k := k + 1;
    }
    assert chunks[..k] == chunks;
  }

  ghost function Holding(acc: StreamAccumulator, deltas: seq<Delta>): Reading
    reads acc
  {
    Reading(acc.identity, acc.role, acc.finishReason, acc.usage, acc.content, acc.reasoning, deltas)
  }
}
