/** What goes to a provider (completeOnce of internal/upstream/client.go): the request shaped
    by a profile and then cleaned, and everything that can be said of the result without
    repeating how it is made. */
module Bodies {
  import opened Wrappers
  import opened Text
  import opened Messages
  import opened Quirks

  /** The body of a request under a profile. */
  function Body(p: Profile, req: Payload): Payload {
    var s := Shaped(p, req);
    s.(messages := Wire(s.messages), params := WireParams(s.params, false))
  }

  /** BuildBody(Apply(profile, req), false). */
  method MakeBody(p: Profile, req: Request) returns (body: Request)
    ensures fresh(body) && body.Value() == Body(p, req.Value())
    ensures req.Value() == old(req.Value())
  {
    hide Shaped, Wire, WireParams;
    var shaped := Apply(p, req);
    body := BuildBody(shaped, false);
  }

  // ---- Messages ----

  /** An instruction goes out under the profile's role for it, and not at all if it has none. */
  predicate RolesFit(p: Profile, ms: seq<Message>) {
    forall m | m in ms && (m.role == System || m.role == Developer) ::
      p.systemRole != User && m.role == if p.systemRole == Developer then Developer else System
  }

  /** No thoughts are echoed back, under any name. */
  predicate ThoughtsAreHidden(ms: seq<Message>) {
    forall m | m in ms :: m.reasoning == "" && m.extra.Keys !! {"reasoning_content", "reasoning", "thinking", "harness"}
  }

  /** A call without words has the kind of content the profile wants to see there. */
  predicate BlanksFit(p: Profile, ms: seq<Message>) {
    forall m | m in ms && m.role == Assistant && m.toolCalls != [] && AllSpace(Flatten(m.content)) ::
      match p.toolCallContent
      case StyleNull => m.content == Content.Null
      case StyleEmpty => m.content == Content.Text("")
      case StyleOmit => m.content == Content.Absent
      case StylePassthrough => true
  }

  /** The conversation is the client's: with a role for instructions, message by message;
      without one, without its instructions, whose texts stand ahead of the first user
      message. */
  predicate TextKept(p: Profile, ms: seq<Message>, out: seq<Message>) {
    var texts, rest := SystemTexts(ms), WithoutSystem(ms);
    if p.systemRole != User then Aligned(ms, out) && SystemTexts(out) == texts && SameWordsAll(rest, WithoutSystem(out))
    else if texts == [] then SameWordsAll(rest, out)
    else FoldedInFront(rest, Join(texts, "\n\n"), out)
  }

  ghost predicate MessagesFit(p: Profile, ms: seq<Message>, out: seq<Message>) {
    && RolesFit(p, out) && ThoughtsAreHidden(out) && BlanksFit(p, out)
    && (WellPaired(ms) ==> PairedByPosition(out))
    && exists kept :: TextKept(p, ms, kept) && out == Wire(kept)
  }

  lemma RewrittenRolesFit(p: Profile, ms: seq<Message>)
    ensures RolesFit(p, ShapedMessages(p, ms))
  {
    OnlyTheProfilesSystemRole(p, ms);
    hide ShapedMessages;
  }

  lemma RewriteFitsBlanks(p: Profile, m: Message)
    ensures BlanksFit(p, Rewrite(p, m))
  {
    TrimEmpty(Flatten(m.content));
    if !IsInstruction(m) { TrimEmpty(Flatten(Dress(p, m).content)); }
    hide Trim, AllSpace;
  }

  lemma {:induction false} RewrittenFitsBlanks(p: Profile, ms: seq<Message>)
    ensures BlanksFit(p, Rewritten(p, ms))
  {
    if ms != [] {
      RewriteFitsBlanks(p, ms[0]);
      RewrittenFitsBlanks(p, ms[1..]);
      hide Rewrite, AllSpace;
    }
  }

  lemma ShapedFitsBlanks(p: Profile, ms: seq<Message>)
    ensures BlanksFit(p, ShapedMessages(p, ms))
  {
    RewrittenFitsBlanks(p, ms);
    hide Rewritten, AllSpace;
  }

  lemma WireKeepsFit(p: Profile, ms: seq<Message>)
    requires RolesFit(p, ms) && BlanksFit(p, ms)
    ensures RolesFit(p, Wire(ms)) && BlanksFit(p, Wire(ms)) && ThoughtsAreHidden(Wire(ms))
  {
    hide AllSpace, Flatten;
    var out := Wire(ms);
    forall m | m in out
      ensures exists k :: 0 <= k < |ms| && m == ms[k].(reasoning := "", extra := ms[k].extra - BANNED_KEYS)
    {
      var k :| 0 <= k < |out| && out[k] == m;
      assert m == ms[k].(reasoning := "", extra := ms[k].extra - BANNED_KEYS);
    }
    forall m | m in out && m.role == Assistant && m.toolCalls != [] && AllSpace(Flatten(m.content))
      ensures match p.toolCallContent
              case StyleNull => m.content == Content.Null
              case StyleEmpty => m.content == Content.Text("")
              case StyleOmit => m.content == Content.Absent
              case StylePassthrough => true
    {
      var k :| 0 <= k < |ms| && m == ms[k].(reasoning := "", extra := ms[k].extra - BANNED_KEYS);
      assert ms[k] in ms;
    }
  }

  lemma BodyMessagesFit(p: Profile, ms: seq<Message>)
    ensures MessagesFit(p, ms, Wire(ShapedMessages(p, ms)))
  {
    var kept := ShapedMessages(p, ms);
    RewrittenRolesFit(p, ms);
    ShapedFitsBlanks(p, ms);
    WireKeepsFit(p, kept);
    TextIsConserved(p, ms);
    assert TextKept(p, ms, kept);
    hide *;
    if WellPaired(ms) {
      ShapingKeepsPairing(p, ms);
      PairedMeansByPosition(Wire(kept));
    }
    Fits(p, ms, kept);
  }

  lemma Fits(p: Profile, ms: seq<Message>, kept: seq<Message>)
    requires RolesFit(p, Wire(kept)) && ThoughtsAreHidden(Wire(kept)) && BlanksFit(p, Wire(kept))
    requires (WellPaired(ms) ==> PairedByPosition(Wire(kept))) && TextKept(p, ms, kept)
    ensures MessagesFit(p, ms, Wire(kept))
  {
    hide RolesFit, ThoughtsAreHidden, BlanksFit, WellPaired, PairedByPosition, TextKept, Wire;
  }

  // ---- Parameters and tools ----

  /** The limit goes out in the one field the profile reads, a completion limit before a
      plain one; what the profile does not accept does not go out at all; and the rest is
      the client's. */
  predicate ParamsFit(p: Profile, q: Params, out: Params) {
    var limit := if q.maxCompletionTokens.Some? then q.maxCompletionTokens else q.maxTokens;
    && (if p.maxTokensField == "max_completion_tokens" then out.maxCompletionTokens == limit && out.maxTokens == None
        else out.maxTokens == limit && out.maxCompletionTokens == None)
    && out.sampling == (if p.sampling then q.sampling else (None, None, None, None))
    && out.parallelToolCalls == (if p.parallelToolCalls then q.parallelToolCalls else None)
    && out.stop <= q.stop
    && |out.stop| == (if 0 < p.maxStopSequences < |q.stop| then p.maxStopSequences else |q.stop|)
    && !out.stream && out.streamOptions == None && out.harness == None
    && "harness" !in out.extra && out.extra == q.extra - {"harness"}
  }

  /** The tools are the client's, but for a flag the profile does not accept. */
  predicate ToolsFit(p: Profile, tools: seq<ToolDef>, out: seq<ToolDef>) {
    && |out| == |tools|
    && forall k | 0 <= k < |tools| ::
         && out[k].name == tools[k].name && out[k].parameters == tools[k].parameters
         && out[k].strict == if p.strictSchemas then tools[k].strict else None
  }

  ghost predicate FitFor(p: Profile, req: Payload, body: Payload) {
    && body.model == req.model && MessagesFit(p, req.messages, body.messages)
    && ToolsFit(p, req.tools, body.tools) && ParamsFit(p, req.params, body.params)
  }

  lemma BodyParamsFit(p: Profile, q: Params)
    ensures ParamsFit(p, q, WireParams(ShapedParams(p, q), false))
  {
  }

  /** Whatever the profile and the request, the body is fit for the provider. */
  lemma BodyFits(p: Profile, req: Payload)
    ensures FitFor(p, req, Body(p, req))
  {
    BodyMessagesFit(p, req.messages);
    BodyParamsFit(p, req.params);
    hide MessagesFit, ParamsFit, ShapedMessages, ShapedParams, Wire, WireParams;
  }
}
