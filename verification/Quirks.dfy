/** Shaping a request for one provider (internal/upstream/quirks.go, and BuildBody of
    internal/upstream/client.go).  Slices are arrays here, so that what the code may
    write to, and what it must leave to its caller, is part of every contract. */
module Quirks {
  import opened Wrappers
  import opened Text
  import opened Messages
  import AgentRun
  import FileTools
  import Estimators

  datatype Style = StyleNull | StyleEmpty | StyleOmit | StylePassthrough

  datatype Profile = Profile(
    name: string,
    maxTokensField: string,
    systemRole: Role,
    toolCallContent: Style,
    parallelToolCalls: bool,
    strictSchemas: bool,
    sampling: bool,
    maxStopSequences: int,
    basicSchemas: bool,
    streamUsage: bool)

  datatype ToolDef = ToolDef(name: string, parameters: string, strict: Option<bool>)

  /** The optional parameters of a request.  Sampling stands for temperature, top_p and
      the two penalties, in that order. */
  datatype Params = Params(
    sampling: (Option<real>, Option<real>, Option<real>, Option<real>),
    parallelToolCalls: Option<bool>,
    maxTokens: Option<int>,
    maxCompletionTokens: Option<int>,
    stop: seq<string>,
    streamOptions: Option<bool>,
    stream: bool,
    harness: Option<string>,
    extra: map<string, string>)

  /** A request as a value. */
  datatype Payload = Payload(model: string, messages: seq<Message>, tools: seq<ToolDef>, params: Params)

  const NO_SAMPLING: (Option<real>, Option<real>, Option<real>, Option<real>) := (None, None, None, None)

  // ---- What a shaped request is ----

  function SystemRole(p: Profile): Role {
    if p.systemRole == Developer then Developer else System
  }

  predicate Folds(p: Profile) {
    p.systemRole == User
  }

  function ToolCallContent(p: Profile, c: Content): Content {
    if Trim(Flatten(c)) != "" then c
    else
      match p.toolCallContent
      case StyleNull => Content.Null
      case StyleEmpty => Content.Text("")
      case StyleOmit => Content.Absent
      case StylePassthrough => c
  }

  function Dress(p: Profile, m: Message): Message {
    if m.role == Assistant && m.toolCalls != [] then m.(content := ToolCallContent(p, m.content)) else m
  }

  /** What one message of the caller contributes. */
  function Rewrite(p: Profile, m: Message): seq<Message> {
    if !IsInstruction(m) then [Dress(p, m)] else if Folds(p) then [] else [m.(role := SystemRole(p))]
  }

  function Rewritten(p: Profile, ms: seq<Message>): seq<Message> {
    if ms == [] then [] else Rewrite(p, ms[0]) + Rewritten(p, ms[1..])
  }

  /** The first user message, or the end. */
  function FirstUser(ms: seq<Message>): (i: nat)
    ensures i <= |ms| && (i < |ms| ==> ms[i].role == User)
    ensures forall k | 0 <= k < i :: ms[k].role != User
  {
    if ms == [] || ms[0].role == User then 0 else 1 + FirstUser(ms[1..])
  }

  function Folded(ms: seq<Message>, text: string): seq<Message> {
    var i := FirstUser(ms);
    if i == |ms| then [Plain(User, text)] + ms
    else ms[i := ms[i].(content := Content.Text(text + "\n\n" + Flatten(ms[i].content)))]
  }

  function ShapedMessages(p: Profile, ms: seq<Message>): seq<Message> {
    if Folds(p) && SystemTexts(ms) != [] then Folded(Rewritten(p, ms), Join(SystemTexts(ms), "\n\n"))
    else Rewritten(p, ms)
  }

  function ShapedTools(p: Profile, tools: seq<ToolDef>): seq<ToolDef> {
    if p.strictSchemas then tools else seq(|tools|, k requires 0 <= k < |tools| => tools[k].(strict := None))
  }

  function TokenLimit(p: Profile, q: Params): Params {
    var limit := if q.maxCompletionTokens.Some? then q.maxCompletionTokens else q.maxTokens;
    if limit.None? then q
    else if p.maxTokensField == "max_completion_tokens" then q.(maxTokens := None, maxCompletionTokens := limit)
    else q.(maxTokens := limit, maxCompletionTokens := None)
  }

  /** The parameters but for those the provider rejects. */
  function Accepted(p: Profile, r: Params): Params {
    r.(sampling := if p.sampling then r.sampling else NO_SAMPLING,
       parallelToolCalls := if p.parallelToolCalls then r.parallelToolCalls else None,
       stop := if 0 < p.maxStopSequences < |r.stop| then r.stop[..p.maxStopSequences] else r.stop,
       streamOptions := if p.streamUsage then r.streamOptions else None)
  }

  function ShapedParams(p: Profile, q: Params): Params {
    Accepted(p, TokenLimit(p, q))
  }

  function Shaped(p: Profile, r: Payload): Payload {
    Payload(r.model, ShapedMessages(p, r.messages), ShapedTools(p, r.tools), ShapedParams(p, r.params))
  }

  // ---- Lists of messages, one more at the end ----

  lemma {:induction false} RewrittenSnoc(p: Profile, ms: seq<Message>, m: Message)
    ensures Rewritten(p, ms + [m]) == Rewritten(p, ms) + Rewrite(p, m)
  {
    if ms == [] {
      assert [m][1..] == [] && Rewrite(p, m) + [] == Rewrite(p, m);
    } else {
      assert (ms + [m])[1..] == ms[1..] + [m];
      RewrittenSnoc(p, ms[1..], m);
    }
  }

  function Instruction(m: Message): seq<string> {
    if IsInstruction(m) && Trim(Flatten(m.content)) != "" then [Trim(Flatten(m.content))] else []
  }

  lemma {:induction false} SystemTextsSnoc(ms: seq<Message>, m: Message)
    ensures SystemTexts(ms + [m]) == SystemTexts(ms) + Instruction(m)
  {
    if ms == [] {
      assert [m][1..] == [] && Instruction(m) + [] == Instruction(m);
    } else {
      assert (ms + [m])[1..] == ms[1..] + [m];
      SystemTextsSnoc(ms[1..], m);
    }
  }

  // ---- The code ----

  class Request {
    var model: string
    var messages: array<Message>
    var tools: array<ToolDef>
    var params: Params

    constructor (model: string, messages: array<Message>, tools: array<ToolDef>, params: Params)
      ensures this.messages == messages && this.tools == tools
      ensures this.model == model && this.params == params
    {
      this.model, this.messages, this.tools, this.params := model, messages, tools, params;
    }

    function Value(): Payload
      reads this, messages, tools
    {
      Payload(model, messages[..], tools[..], params)
    }
  }

  /** foldIntoFirstUser, which writes into the list it is given. */
  method FoldIntoFirstUser(msgs: array<Message>, text: string) returns (out: array<Message>)
    modifies msgs
    ensures out == msgs || fresh(out)
    ensures out[..] == Folded(old(msgs[..]), text)
  {
    var i := 0;
    while i < msgs.Length
      invariant 0 <= i <= msgs.Length
      invariant msgs[..] == old(msgs[..])
      invariant forall k | 0 <= k < i :: msgs[k].role != User
    {
      var m := msgs[i];
      if m.role == User {
        FirstUserIs(msgs[..], i);
        msgs[i] := m.(content := Content.Text(text + "\n\n" + Flatten(m.content)));
        return msgs;
      }
      i := i + 1;
    }
    FirstUserIs(msgs[..], i);
    var all := [Plain(User, text)] + msgs[..];
    out := new Message[|all|](k requires 0 <= k < |all| => all[k]);
  }

  lemma FirstUserIs(ms: seq<Message>, i: nat)
    requires i <= |ms| && (i < |ms| ==> ms[i].role == User)
    requires forall k | 0 <= k < i :: ms[k].role != User
    ensures FirstUser(ms) == i
  {
  }

  /** applyMessages. */
  method ApplyMessages(p: Profile, msgs: array<Message>) returns (out: array<Message>)
    ensures out[..] == ShapedMessages(p, old(msgs[..]))
    ensures out != msgs ==> fresh(out)
  {
    if msgs.Length == 0 {
      return msgs;
    }
    var kept: seq<Message> := [];
    var folded: seq<string> := [];
    var i := 0;
    while i < msgs.Length
      invariant 0 <= i <= msgs.Length
      invariant kept == Rewritten(p, msgs[..i])
      invariant folded == if Folds(p) then SystemTexts(msgs[..i]) else []
    {
      var m := msgs[i];
      assert msgs[..i + 1] == msgs[..i] + [m];
      RewrittenSnoc(p, msgs[..i], m);
      SystemTextsSnoc(msgs[..i], m);
      i := i + 1;
      if IsInstruction(m) {
        if p.systemRole == Developer {
          m := m.(role := Developer);
        } else if p.systemRole == User {
          var text := Trim(Flatten(m.content));
          if text != "" {
            folded := folded + [text];
          }
          continue;
        } else {
          m := m.(role := System);
        }
      }
      if m.role == Assistant && |m.toolCalls| > 0 {
        m := m.(content := ToolCallContent(p, m.content));
      }
      kept := kept + [m];
    }
    assert msgs[..i] == msgs[..];
    out := new Message[|kept|](k requires 0 <= k < |kept| => kept[k]);
    assert out[..] == kept;
    if |folded| > 0 {
      out := FoldIntoFirstUser(out, Join(folded, "\n\n"));
    }
  }

  /** applyTools. */
  method ApplyTools(p: Profile, tools: array<ToolDef>) returns (out: array<ToolDef>)
    ensures out[..] == ShapedTools(p, old(tools[..]))
    ensures out != tools ==> fresh(out)
  {
    if tools.Length == 0 || p.strictSchemas {
      return tools;
    }
    var copied := tools[..];
    out := new ToolDef[|copied|](k requires 0 <= k < |copied| => copied[k]);
    var i := 0;
    while i < out.Length
      invariant 0 <= i <= out.Length && fresh(out)
      invariant forall k | 0 <= k < i :: out[k] == copied[k].(strict := None)
      invariant forall k | i <= k < out.Length :: out[k] == copied[k]
    {
      out[i] := out[i].(strict := None);
      i := i + 1;
    }
  }

  /** applyTokenLimit, on the copy. */
  method ApplyTokenLimit(p: Profile, req: Request)
    modifies req`params
    ensures req.params == TokenLimit(p, old(req.params))
  {
    var limit := req.params.maxCompletionTokens;
    if limit.None? {
      limit := req.params.maxTokens;
    }
    if limit.None? {
      return;
    }
    req.params := req.params.(maxTokens := None, maxCompletionTokens := None);
    if p.maxTokensField == "max_completion_tokens" {
      req.params := req.params.(maxCompletionTokens := limit);
    } else {
      req.params := req.params.(maxTokens := limit);
    }
  }

  /** The rest of Apply, on the copy. */
  method ApplyParams(p: Profile, out: Request)
    modifies out`params
    ensures out.params == ShapedParams(p, old(out.params))
  {
    ApplyTokenLimit(p, out);
    if !p.sampling {
      out.params := out.params.(sampling := NO_SAMPLING);
    }
    if !p.parallelToolCalls {
      out.params := out.params.(parallelToolCalls := None);
    }
    var n := p.maxStopSequences;
    if n > 0 && |out.params.stop| > n {
      out.params := out.params.(stop := out.params.stop[..n]);
    }
    if !p.streamUsage {
      out.params := out.params.(streamOptions := None);
    }
  }

  /** Apply.  It modifies nothing that existed before: the caller's request, its list of
      messages and its list of tools are as they were. */
  method Apply(p: Profile, req: Request) returns (out: Request)
    ensures fresh(out) && out.Value() == Shaped(p, req.Value())
    ensures req.Value() == old(req.Value())
  {
    hide ShapedMessages, ShapedTools, ShapedParams;
    var messages := ApplyMessages(p, req.messages);
    var tools := ApplyTools(p, req.tools);
    out := new Request(req.model, messages, tools, req.params);
    ApplyParams(p, out);
  }

  /** Message members that are never echoed to a provider. */
  const BANNED_KEYS: set<string> := {"reasoning_content", "reasoning", "thinking", "harness"}

  /** A message as it goes on the wire: no chain of thought is echoed back, under any name. */
  function OnWire(m: Message): Message {
    m.(reasoning := "", extra := m.extra - BANNED_KEYS)
  }

  function Wire(ms: seq<Message>): seq<Message> {
    seq(|ms|, k requires 0 <= k < |ms| => OnWire(ms[k]))
  }

  function WireParams(params: Params, stream: bool): Params {
    params.(harness := None, extra := params.extra - {"harness"}, stream := stream,
            streamOptions := if stream then params.streamOptions else None)
  }

  /** What a provider is never shown, and that nothing else is withheld. */
  lemma WireHidesThoughts(ms: seq<Message>, params: Params, stream: bool)
    ensures forall m | m in Wire(ms) :: m.reasoning == "" && m.extra.Keys !! BANNED_KEYS
    ensures WireParams(params, stream).harness == None && "harness" !in WireParams(params, stream).extra
    ensures forall i, key | 0 <= i < |ms| && key !in BANNED_KEYS ::
              (key in Wire(ms)[i].extra <==> key in ms[i].extra)
              && (key in ms[i].extra ==> Wire(ms)[i].extra[key] == ms[i].extra[key])
  {
  }

  /** The members of an object but for some, taken in no particular order. */
  method Without(extra: map<string, string>, banned: set<string>) returns (cleaned: map<string, string>)
    ensures cleaned == extra - banned
  {
    cleaned := map[];
    var items := extra.Items;
    while items != {}
      invariant items <= extra.Items
      invariant cleaned == map key | key in extra && key !in banned && (key, extra[key]) !in items :: extra[key]
      decreases items
    {
      var item :| item in items;
      items := items - {item};
      if item.0 in banned { continue; }
      cleaned := cleaned[item.0 := item.1];
    }
  }

  /** BuildBody, up to the encoding. */
  method BuildBody(req: Request, stream: bool) returns (out: Request)
    ensures fresh(out) && fresh(out.messages) && out.messages[..] == Wire(req.messages[..])
    ensures out.model == req.model && out.tools == req.tools
    ensures out.params == WireParams(req.params, stream)
  {
    var given := req.messages[..];
    var messages := new Message[|given|](k requires 0 <= k < |given| => given[k]);
    var i := 0;
    while i < messages.Length
      invariant 0 <= i <= messages.Length
      invariant forall k | 0 <= k < i :: messages[k] == OnWire(given[k])
      invariant forall k | i <= k < messages.Length :: messages[k] == given[k]
    {
      var cleaned := Without(messages[i].extra, BANNED_KEYS);
      messages[i] := messages[i].(reasoning := "", extra := cleaned);
      i := i + 1;
    }
    var extra := Without(req.params.extra, {"harness"});
    out := new Request(req.model, messages, req.tools, req.params.(harness := None, stream := stream, extra := extra));
    if !stream {
      out.params := out.params.(streamOptions := None);
    }
  }

  // ---- Applying a profile twice is applying it once ----

  /** A message the profile would leave as it is. */
  predicate Settled(p: Profile, m: Message) {
    Rewrite(p, m) == [m]
  }

  lemma RewriteSettles(p: Profile, m: Message)
    ensures forall r | r in Rewrite(p, m) :: Settled(p, r)
  {
    assert Trim("") == "";
  }

  lemma {:induction false} RewrittenSettles(p: Profile, ms: seq<Message>)
    ensures forall r | r in Rewritten(p, ms) :: Settled(p, r)
  {
    if ms != [] {
      RewriteSettles(p, ms[0]);
      RewrittenSettles(p, ms[1..]);
    }
  }

  lemma {:induction false} SettledStays(p: Profile, ms: seq<Message>)
    requires forall m | m in ms :: Settled(p, m)
    ensures Rewritten(p, ms) == ms
    ensures Folds(p) ==> SystemTexts(ms) == []
  {
    if ms != [] {
      assert Settled(p, ms[0]);
      SettledStays(p, ms[1..]);
      assert ms == [ms[0]] + ms[1..];
    }
  }

  lemma ShapedMessagesSettle(p: Profile, ms: seq<Message>)
    ensures forall m | m in ShapedMessages(p, ms) :: Settled(p, m)
  {
    RewrittenSettles(p, ms);
  }

  /** The loop re-sends its history every turn; shaping it again changes nothing. */
  lemma ShapingIsIdempotent(p: Profile, r: Payload)
    ensures Shaped(p, Shaped(p, r)) == Shaped(p, r)
  {
    MessagesSettle(p, r.messages);
    ToolsSettle(p, r.tools);
    ParamsSettle(p, r.params);
    hide ShapedMessages, ShapedTools, ShapedParams;
  }

  lemma MessagesSettle(p: Profile, ms: seq<Message>)
    ensures ShapedMessages(p, ShapedMessages(p, ms)) == ShapedMessages(p, ms)
  {
    ShapedMessagesSettle(p, ms);
    hide Rewrite, Folded, Trim;
    SettledStays(p, ShapedMessages(p, ms));
  }

  lemma ToolsSettle(p: Profile, tools: seq<ToolDef>)
    ensures ShapedTools(p, ShapedTools(p, tools)) == ShapedTools(p, tools)
  {
  }

  lemma ParamsSettle(p: Profile, q: Params)
    ensures ShapedParams(p, ShapedParams(p, q)) == ShapedParams(p, q)
  {
    hide TokenLimit, Accepted;
    LimitSettles(p, q);
    AcceptedSettles(p, TokenLimit(p, q));
  }

  lemma LimitSettles(p: Profile, q: Params)
    ensures TokenLimit(p, Accepted(p, TokenLimit(p, q))) == Accepted(p, TokenLimit(p, q))
  {
  }

  lemma AcceptedSettles(p: Profile, r: Params)
    ensures Accepted(p, Accepted(p, r)) == Accepted(p, r)
  {
  }

  /** Instructions go out as developer messages if that is what the profile says, as system
      messages if it says anything else but user, and if it says user not at all. */
  lemma OnlyTheProfilesSystemRole(p: Profile, ms: seq<Message>)
    ensures forall m | m in ShapedMessages(p, ms) && (m.role == System || m.role == Developer) ::
              && p.systemRole != User
              && (p.systemRole == Developer ==> m.role == Developer) && (p.systemRole != Developer ==> m.role == System)
    ensures forall m | m in ShapedMessages(p, ms) && IsInstruction(m) :: !Folds(p) && m.role == SystemRole(p)
  {
    ShapedMessagesSettle(p, ms);
    forall m | m in ShapedMessages(p, ms) && IsInstruction(m) ensures !Folds(p) && m.role == SystemRole(p) {
      assert Rewrite(p, m) == [m];
      if !Folds(p) { assert [m][0] == m.(role := SystemRole(p)); }
    }
  }

  /** Of the parameters a provider may reject, only what the profile allows goes out; an
      output limit goes out in one field, the one the profile reads, and the completion
      limit is the one that counts. */
  lemma OnlyAllowedParams(p: Profile, q: Params)
    ensures var r := ShapedParams(p, q);
            var limit := if q.maxCompletionTokens.Some? then q.maxCompletionTokens else q.maxTokens;
            && {r.maxTokens, r.maxCompletionTokens} == {limit, None}
            && (r.maxCompletionTokens.Some? ==> p.maxTokensField == "max_completion_tokens")
            && (r.maxTokens.Some? ==> p.maxTokensField != "max_completion_tokens")
            && r.sampling == (if p.sampling then q.sampling else NO_SAMPLING)
            && (r.parallelToolCalls.Some? ==> p.parallelToolCalls) && (r.streamOptions.Some? ==> p.streamUsage)
            && r.stop <= q.stop && (p.maxStopSequences > 0 ==> |r.stop| <= p.maxStopSequences)
            && (p.maxStopSequences <= 0 || |q.stop| <= p.maxStopSequences ==> r.stop == q.stop)
  {
    OneLimitField(p, q);
    hide TokenLimit;
  }

  lemma OneLimitField(p: Profile, q: Params)
    ensures var r := TokenLimit(p, q);
            var limit := if q.maxCompletionTokens.Some? then q.maxCompletionTokens else q.maxTokens;
            && r == q.(maxTokens := r.maxTokens, maxCompletionTokens := r.maxCompletionTokens)
            && {r.maxTokens, r.maxCompletionTokens} == {limit, None}
            && (r.maxCompletionTokens.Some? ==> p.maxTokensField == "max_completion_tokens")
            && (r.maxTokens.Some? ==> p.maxTokensField != "max_completion_tokens")
  {
  }

  // ---- No text is lost ----

  /** Same message but for the form of a blank content. */
  predicate SameWords(a: Message, b: Message) {
    && b == a.(content := b.content)
    && (a.content == b.content || Trim(Flatten(a.content)) == Trim(Flatten(b.content)) == "")
  }

  predicate SameWordsAll(a: seq<Message>, b: seq<Message>) {
    |a| == |b| && forall k | 0 <= k < |a| :: SameWords(a[k], b[k])
  }

  lemma RewrittenCons(p: Profile, ms: seq<Message>)
    requires ms != []
    ensures IsInstruction(ms[0]) && Folds(p) ==> Rewritten(p, ms) == Rewritten(p, ms[1..])
    ensures !IsInstruction(ms[0]) || !Folds(p) ==>
              Rewritten(p, ms) == [Rewrite(p, ms[0])[0]] + Rewritten(p, ms[1..])
              && Rewritten(p, ms)[1..] == Rewritten(p, ms[1..])
              && IsInstruction(Rewritten(p, ms)[0]) == IsInstruction(ms[0])
  {
  }

  lemma {:induction false} RewrittenKeepsInstructions(p: Profile, ms: seq<Message>)
    ensures SystemTexts(Rewritten(p, ms)) == if Folds(p) then [] else SystemTexts(ms)
    ensures Folds(p) ==> forall m | m in Rewritten(p, ms) :: !IsInstruction(m)
    ensures !Folds(p) ==> Aligned(ms, Rewritten(p, ms))
  {
    if ms != [] {
      RewrittenCons(p, ms);
      RewrittenKeepsInstructions(p, ms[1..]);
    }
  }

  predicate Aligned(a: seq<Message>, b: seq<Message>) {
    |a| == |b| && forall k | 0 <= k < |a| :: IsInstruction(a[k]) <==> IsInstruction(b[k])
  }

  lemma {:induction false} RewrittenKeepsWords(p: Profile, ms: seq<Message>)
    ensures SameWordsAll(WithoutSystem(ms), WithoutSystem(Rewritten(p, ms)))
  {
    if ms != [] {
      RewrittenCons(p, ms);
      RewrittenKeepsWords(p, ms[1..]);
      if !IsInstruction(ms[0]) {
        assert SameWords(ms[0], Dress(p, ms[0])) by { assert Trim("") == ""; }
        SameWordsCons(ms[0], Dress(p, ms[0]), WithoutSystem(ms[1..]), WithoutSystem(Rewritten(p, ms[1..])));
      }
    }
  }

  lemma SameWordsCons(m: Message, n: Message, a: seq<Message>, b: seq<Message>)
    requires SameWords(m, n) && SameWordsAll(a, b)
    ensures SameWordsAll([m] + a, [n] + b)
  {
  }

  lemma {:induction false} NothingToDrop(ms: seq<Message>)
    requires forall m | m in ms :: !IsInstruction(m)
    ensures WithoutSystem(ms) == ms
  {
    if ms != [] {
      assert ms[0] in ms;
      NothingToDrop(ms[1..]);
      assert ms == [ms[0]] + ms[1..];
    }
  }

  /** With a system role, every instruction stays where it stood and every other message
      says what it said.  Without one, what is sent is the conversation without its
      instructions, whose non-blank texts, trimmed and in order, precede the first user
      message, or stand alone at the front if there is none. */
  lemma TextIsConserved(p: Profile, ms: seq<Message>)
    ensures var out := ShapedMessages(p, ms);
            var texts, rest := SystemTexts(ms), WithoutSystem(ms);
            if !Folds(p) then Aligned(ms, out) && SystemTexts(out) == texts && SameWordsAll(rest, WithoutSystem(out))
            else if texts == [] then SameWordsAll(rest, out)
            else FoldedInFront(rest, Join(texts, "\n\n"), out)
  {
    RewrittenKeepsInstructions(p, ms);
    RewrittenKeepsWords(p, ms);
    var rest, r := WithoutSystem(ms), Rewritten(p, ms);
    if Folds(p) {
      NothingToDrop(r);
      if SystemTexts(ms) != [] {
        var i := FirstUser(rest);
        assert forall k | 0 <= k < |rest| :: SameWords(rest[k], r[k]);
        FirstUserIs(r, i);
        if i < |rest| { UserKeepsContent(p, ms, i); }
        FoldShows(rest, r, Join(SystemTexts(ms), "\n\n"));
      }
    }
  }

  predicate FoldedInFront(rest: seq<Message>, text: string, out: seq<Message>) {
    var i := FirstUser(rest);
    if i == |rest| then out != [] && out[0] == Plain(User, text) && SameWordsAll(rest, out[1..])
    else
      && |out| == |rest| && SameWordsAll(rest[..i], out[..i]) && SameWordsAll(rest[i + 1..], out[i + 1..])
      && Flatten(out[i].content) == text + "\n\n" + Flatten(rest[i].content)
      && out[i] == rest[i].(content := out[i].content)
  }

  lemma FoldShows(rest: seq<Message>, r: seq<Message>, text: string)
    requires SameWordsAll(rest, r) && FirstUser(r) == FirstUser(rest)
    requires FirstUser(r) < |r| ==> r[FirstUser(r)] == rest[FirstUser(r)]
    ensures FoldedInFront(rest, text, Folded(r, text))
  {
    var i := FirstUser(rest);
    if i == |rest| {
      assert Folded(r, text)[1..] == r;
    }
  }

  lemma {:induction false} UserKeepsContent(p: Profile, ms: seq<Message>, i: nat)
    requires Folds(p) && i < |WithoutSystem(ms)| == |Rewritten(p, ms)| && WithoutSystem(ms)[i].role == User
    ensures Rewritten(p, ms)[i] == WithoutSystem(ms)[i]
  {
    if IsInstruction(ms[0]) {
      UserKeepsContent(p, ms[1..], i);
    } else if i > 0 {
      UserKeepsContent(p, ms[1..], i - 1);
    }
  }

  // ---- Calls and results stay paired on the wire ----

  lemma {:induction false} RewrittenScan(p: Profile, o: Owed, ms: seq<Message>)
    requires Scan(o, ms) == Some([])
    ensures Scan(o, Rewritten(p, ms)) == Some([])
    decreases ms
  {
    if ms != [] {
      if Owe(o, ms[0]) == None { ScanBroken(ms[1..]); }
      RewrittenScan(p, Owe(o, ms[0]), ms[1..]);
      var head, tail := Rewrite(p, ms[0]), Rewritten(p, ms[1..]);
      if IsInstruction(ms[0]) { assert Owe(o, ms[0]) == Some(Ids([])) == o; }
      RewrittenCons(p, ms);
      if head != [] { assert Owe(o, head[0]) == Owe(o, ms[0]); }
    }
  }

  /** Whatever the profile, a paired conversation is paired as it is sent. */
  lemma ShapingKeepsPairing(p: Profile, ms: seq<Message>)
    requires WellPaired(ms)
    ensures WellPaired(Wire(ShapedMessages(p, ms)))
  {
    RewrittenScan(p, Some([]), ms);
    var r := Rewritten(p, ms);
    if Folds(p) && SystemTexts(ms) != [] {
      var text := Join(SystemTexts(ms), "\n\n");
      if FirstUser(r) == |r| {
        PairedSingle(Plain(User, text));
        PairedAppend([Plain(User, text)], r);
      } else {
        ScanByShape(Some([]), r, Folded(r, text));
      }
    }
    ScanByShape(Some([]), ShapedMessages(p, ms), Wire(ShapedMessages(p, ms)));
  }

  /** The promise strict providers are given, end to end: if the client's messages are
      paired, then so is the body of every request of the run, through any number of
      turns, prunes, summaries and overflow retries, and whatever profile is in force
      when it is sent. */
  lemma EveryBodyIsPaired(cfg: AgentRun.Config, session: FileTools.State, gauge: Estimators.Gauge, prompt: string,
                          request: seq<Message>, inputs: seq<AgentRun.Input>, profiles: nat -> Profile)
    requires Estimators.Plausible(gauge) && WellPaired(request)
    ensures var s := AgentRun.Run(cfg, AgentRun.Start(session, gauge, prompt, request), inputs);
            forall r | 0 <= r < |s.sent| ::
              PairedByPosition(Wire(ShapedMessages(profiles(r), s.sent[r].messages)))
  {
    AgentRun.RunStaysPaired(cfg, session, gauge, prompt, request, inputs);
    var s := AgentRun.Run(cfg, AgentRun.Start(session, gauge, prompt, request), inputs);
    forall r | 0 <= r < |s.sent| ensures PairedByPosition(Wire(ShapedMessages(profiles(r), s.sent[r].messages))) {
      ShapingKeepsPairing(profiles(r), s.sent[r].messages);
      PairedMeansByPosition(Wire(ShapedMessages(profiles(r), s.sent[r].messages)));
    }
  }
}
