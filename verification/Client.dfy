/** Talking to a provider that may reject, fail or hang up (internal/upstream/client.go):
    retries, and learning a profile from rejections.  What the provider answers to the
    n-th attempt is a function of n and of the request it was sent. */
module Client {
  import opened Wrappers
  import opened Messages
  import opened Quirks
  import opened Bodies

  const MAX_AUTO_FIXES: nat := 3

  datatype Fix =
    | MaxCompletionTokens
    | MaxTokens
    | SystemRoleFix
    | DeveloperRole
    | NoParallelToolCalls
    | NoSampling
    | NoStrict
    | BasicSchema
    | NoStreamUsage

  function Adjust(p: Profile, fix: Fix): Profile {
    match fix
    case MaxCompletionTokens => p.(maxTokensField := "max_completion_tokens")
    case MaxTokens => p.(maxTokensField := "max_tokens")
    case SystemRoleFix => p.(systemRole := System)
    case DeveloperRole => p.(systemRole := Developer)
    case NoParallelToolCalls => p.(parallelToolCalls := false)
    case NoSampling => p.(sampling := false)
    case NoStrict => p.(strictSchemas := false)
    case BasicSchema => p.(basicSchemas := true)
    case NoStreamUsage => p.(streamUsage := false)
  }

  /** An HTTP exchange: no response at all, perhaps because the client went away, or a
      status with a body that may or may not decode as a completion. */
  datatype Answer =
    | Lost(cancelled: bool)
    | Reply(status: int, body: string, decodes: bool)

  /** One attempt; gaveUp says that the client went away while waiting to retry. */
  datatype Attempt = Attempt(gaveUp: bool, answer: Answer)

  type Provider = (nat, Payload) -> Attempt

  datatype Failure =
    | Gone
    | Disconnected
    | Rejected(status: int, body: string)
    | Undecodable
    | Exhausted(last: Option<Failure>)

  datatype Outcome = Done(body: string) | Failed(failure: Failure)

  datatype Setup = Setup(profile: Profile, maxRetries: int, infer: string -> Option<Fix>)

  /** What has been learned, per model. */
  datatype Lessons = Lessons(learned: map<string, Profile>, applied: map<string, seq<Fix>>)

  predicate Retryable(status: int) {
    status in {408, 409, 425, 429} || status >= 500
  }

  function ProfileFor(c: Setup, l: Lessons, model: string): Profile {
    if model in l.learned then l.learned[model] else c.profile
  }

  function AppliedTo(l: Lessons, model: string): seq<Fix> {
    if model in l.applied then l.applied[model] else []
  }

  /** errors.As: the rejection inside an error, if there is one. */
  function RejectionIn(f: Failure): (r: Option<Failure>)
    ensures r.Some? ==> r.value.Rejected?
  {
    match f
    case Rejected(_, _) => Some(f)
    case Exhausted(Some(g)) => RejectionIn(g)
    case _ => None
  }

  /** What learnFrom adopts, if anything. */
  function Lesson(c: Setup, l: Lessons, model: string, f: Failure): Option<Fix> {
    match RejectionIn(f)
    case None => None
    case Some(r) =>
      if r.status != 400 || c.infer(r.body).None? then None
      else
        var fix := c.infer(r.body).value;
        if fix in AppliedTo(l, model) || |AppliedTo(l, model)| >= MAX_AUTO_FIXES then None else Some(fix)
  }

  function Adopt(c: Setup, l: Lessons, model: string, fix: Fix): Lessons {
    var p := Adjust(ProfileFor(c, l, model), fix).(name := Auto(c.profile));
    Lessons(l.learned[model := p], l.applied[model := AppliedTo(l, model) + [fix]])
  }

  /** do: one request, from a given attempt on, and how many attempts the client has
      made in all when it is over. */
  function Tries(c: Setup, provider: Provider, body: Payload, used: nat, attempt: nat,
                 last: Option<Failure>): (Outcome, nat)
    decreases c.maxRetries + 1 - attempt
  {
    if attempt > c.maxRetries then (Failed(Exhausted(last)), used)
    else
      var a := provider(used, body);
      if attempt > 0 && a.gaveUp then (Failed(Gone), used)
      else
        match a.answer
        case Lost(cancelled) =>
          if cancelled then (Failed(Gone), used + 1)
          else Tries(c, provider, body, used + 1, attempt + 1, Some(Disconnected))
        case Reply(status, text, decodes) =>
          if status < 400 then (if decodes then Done(text) else Failed(Undecodable), used + 1)
          else if !Retryable(status) then (Failed(Rejected(status, text)), used + 1)
          else Tries(c, provider, body, used + 1, attempt + 1, Some(Rejected(status, text)))
  }

  /** Attempts per request: none at all if retries are configured below zero. */
  function PerRequest(c: Setup): nat {
    if c.maxRetries < 0 then 0 else c.maxRetries + 1
  }

  function Once(c: Setup, l: Lessons, provider: Provider, req: Payload, used: nat): (Outcome, nat) {
    Tries(c, provider, Body(ProfileFor(c, l, req.model), req), used, 0, None)
  }

  /** Complete, with what it leaves learned and how many attempts have then been made. */
  datatype Completion = Completion(outcome: Outcome, lessons: Lessons, used: nat)

  function Completed(c: Setup, l: Lessons, provider: Provider, req: Payload, used: nat): Completion
    decreases MAX_AUTO_FIXES - |AppliedTo(l, req.model)|
  {
    var (outcome, now) := Once(c, l, provider, req, used);
    if outcome.Done? then Completion(outcome, l, now)
    else
      match Lesson(c, l, req.model, outcome.failure)
      case None => Completion(outcome, l, now)
      case Some(fix) => Completed(c, Adopt(c, l, req.model, fix), provider, req, now)
  }

  /** A rejection of the request itself, wherever in the failure it is. */
  ghost predicate BadRequest(f: Failure, body: string) {
    f == Rejected(400, body) || (f.Exhausted? && f.last.Some? && BadRequest(f.last.value, body))
  }

  lemma {:induction false} RejectionIs(f: Failure, body: string)
    ensures BadRequest(f, body) <==> RejectionIn(f) == Some(Rejected(400, body))
  {
    if f.Exhausted? && f.last.Some? { RejectionIs(f.last.value, body); }
  }

  /** Something is learned exactly from a 400 whose text implies a fix this model does not
      have, while it has fewer than three. */
  lemma LessonIff(c: Setup, l: Lessons, model: string, f: Failure, fix: Fix)
    ensures Lesson(c, l, model, f) == Some(fix) <==>
              && (exists body :: BadRequest(f, body) && c.infer(body) == Some(fix))
              && (model in l.applied ==> fix !in l.applied[model] && |l.applied[model]| < 3)
  {
    forall body ensures BadRequest(f, body) <==> RejectionIn(f) == Some(Rejected(400, body)) { RejectionIs(f, body); }
    if Lesson(c, l, model, f) == Some(fix) {
      assert BadRequest(f, RejectionIn(f).value.body);
    }
  }

  /** What each fix does for the requests that follow: the thing complained of is gone from
      them, and nothing else about the profile has changed. */
  lemma FixTakesEffect(p: Profile, fix: Fix, req: Payload)
    ensures var (q, body) := (Adjust(p, fix), Body(Adjust(p, fix), req));
            match fix
            case MaxCompletionTokens => body.params.maxTokens == None && q == p.(maxTokensField := q.maxTokensField)
            case MaxTokens => body.params.maxCompletionTokens == None && q == p.(maxTokensField := q.maxTokensField)
            case SystemRoleFix =>
              (forall m | m in body.messages :: m.role != Developer) && q == p.(systemRole := System)
            case DeveloperRole =>
              (forall m | m in body.messages :: m.role != System) && q == p.(systemRole := Developer)
            case NoParallelToolCalls => body.params.parallelToolCalls == None && q == p.(parallelToolCalls := false)
            case NoSampling => body.params.sampling == (None, None, None, None) && q == p.(sampling := false)
            case NoStrict => (forall t | t in body.tools :: t.strict == None) && q == p.(strictSchemas := false)
            case BasicSchema => q == p.(basicSchemas := true)
            case NoStreamUsage => body.params.streamOptions == None && q == p.(streamUsage := false)
  {
    BodyFits(Adjust(p, fix), req);
    hide Body, PairedByPosition, WellPaired, TextKept, BlanksFit, Wire;
    match fix {
      case MaxCompletionTokens =>
      case MaxTokens =>
      case SystemRoleFix =>
      case DeveloperRole =>
      case NoParallelToolCalls =>
      case NoSampling =>
      case NoStrict =>
      case BasicSchema =>
      case NoStreamUsage =>
    }
  }

  // ---- What has been learned ----

  function AdjustAll(p: Profile, fixes: seq<Fix>): Profile {
    if fixes == [] then p else Adjust(AdjustAll(p, fixes[..|fixes| - 1]), fixes[|fixes| - 1])
  }

  /** Every model's profile is the configured one with that model's fixes, at most three
      and no two the same, applied in the order they were learned. */
  ghost predicate Sound(c: Setup, l: Lessons) {
    && l.learned.Keys == l.applied.Keys
    && forall m | m in l.applied :: SoundFixes(l.applied[m]) && l.learned[m] == Adjusted(c.profile, l.applied[m])
  }

  ghost predicate SoundFixes(fixes: seq<Fix>) {
    0 < |fixes| <= MAX_AUTO_FIXES && forall i, j | 0 <= i < j < |fixes| :: fixes[i] != fixes[j]
  }

  function Auto(p: Profile): string {
    p.name + "+auto"
  }

  function Adjusted(p: Profile, fixes: seq<Fix>): Profile {
    AdjustAll(p, fixes).(name := Auto(p))
  }

  /** No fix looks at the name or changes it, so naming a profile can wait. */
  lemma AdjustKeepsName(p: Profile, name: string, fix: Fix)
    ensures Adjust(p.(name := name), fix) == Adjust(p, fix).(name := name)
  {
    if fix.MaxCompletionTokens? || fix.MaxTokens? {
      LimitKeepsName(p, name, fix);
    } else if fix.SystemRoleFix? || fix.DeveloperRole? {
      RoleKeepsName(p, name, fix);
    } else if fix.NoParallelToolCalls? || fix.NoSampling? || fix.NoStrict? {
      SwitchOffKeepsName(p, name, fix);
    } else {
      SchemaKeepsName(p, name, fix);
    }
    hide Adjust;
  }

  lemma LimitKeepsName(p: Profile, name: string, fix: Fix)
    requires fix.MaxCompletionTokens? || fix.MaxTokens?
    ensures Adjust(p.(name := name), fix) == Adjust(p, fix).(name := name)
  {
  }

  lemma RoleKeepsName(p: Profile, name: string, fix: Fix)
    requires fix.SystemRoleFix? || fix.DeveloperRole?
    ensures Adjust(p.(name := name), fix) == Adjust(p, fix).(name := name)
  {
  }

  lemma SwitchOffKeepsName(p: Profile, name: string, fix: Fix)
    requires fix.NoParallelToolCalls? || fix.NoSampling? || fix.NoStrict?
    ensures Adjust(p.(name := name), fix) == Adjust(p, fix).(name := name)
  {
  }

  lemma SchemaKeepsName(p: Profile, name: string, fix: Fix)
    requires fix.BasicSchema? || fix.NoStreamUsage?
    ensures Adjust(p.(name := name), fix) == Adjust(p, fix).(name := name)
  {
  }

  lemma AdjustedSnoc(p: Profile, q: Profile, fixes: seq<Fix>, fix: Fix)
    requires q.(name := Auto(p)) == Adjusted(p, fixes)
    ensures Adjust(q, fix).(name := Auto(p)) == Adjusted(p, fixes + [fix])
  {
    assert (fixes + [fix])[..|fixes|] == fixes;
    var name, r := Auto(p), AdjustAll(p, fixes);
    assert AdjustAll(p, fixes + [fix]) == Adjust(r, fix);
    AdjustKeepsName(q, name, fix);
    AdjustKeepsName(r, name, fix);
    hide Adjust, AdjustAll, Auto;
  }

  lemma AdoptIsSound(c: Setup, l: Lessons, model: string, fix: Fix)
    requires Sound(c, l) && fix !in AppliedTo(l, model) && |AppliedTo(l, model)| < MAX_AUTO_FIXES
    ensures Sound(c, Adopt(c, l, model, fix))
  {
    hide *;
    var fixes := AppliedTo(l, model);
    KnownProfile(c, l, model);
    AdjustedSnoc(c.profile, ProfileFor(c, l, model), fixes, fix);
    OneMoreFix(c, l, model, fix);
    StillSound(c, l, model, fix);
  }

  /** The profile in force is the configured one with the fixes applied so far. */
  lemma KnownProfile(c: Setup, l: Lessons, model: string)
    requires Sound(c, l)
    ensures ProfileFor(c, l, model).(name := Auto(c.profile)) == Adjusted(c.profile, AppliedTo(l, model))
  {
    hide Adjust, AdjustAll, Auto, SoundFixes;
    NoFixes(c.profile);
  }

  lemma OneMoreFix(c: Setup, l: Lessons, model: string, fix: Fix)
    requires Sound(c, l) && fix !in AppliedTo(l, model) && |AppliedTo(l, model)| < MAX_AUTO_FIXES
    ensures SoundFixes(AppliedTo(l, model) + [fix])
  {
    hide Adjusted;
  }

  lemma StillSound(c: Setup, l: Lessons, model: string, fix: Fix)
    requires Sound(c, l) && SoundFixes(AppliedTo(l, model) + [fix])
    requires Adjust(ProfileFor(c, l, model), fix).(name := Auto(c.profile))
          == Adjusted(c.profile, AppliedTo(l, model) + [fix])
    ensures Sound(c, Adopt(c, l, model, fix))
  {
    hide Adjust, Adjusted, Auto, SoundFixes, AppliedTo, ProfileFor;
  }

  lemma NoFixes(p: Profile)
    ensures AdjustAll(p, []) == p
  {
  }

  /** Learning is about one model and adds one fix to what is known of it. */
  lemma AdoptAdds(c: Setup, l: Lessons, model: string, f: Failure)
    requires Sound(c, l) && Lesson(c, l, model, f).Some?
    ensures var next := Adopt(c, l, model, Lesson(c, l, model, f).value);
            && Sound(c, next)
            && AppliedTo(next, model) == AppliedTo(l, model) + [Lesson(c, l, model, f).value]
            && |AppliedTo(next, model)| == |AppliedTo(l, model)| + 1 <= MAX_AUTO_FIXES
            && SameElsewhere(c, l, next, model)
  {
    hide Sound, Adjust, Auto;
    var fix := Lesson(c, l, model, f).value;
    AdoptIsSound(c, l, model, fix);
    hide Lesson;
  }

  ghost predicate SameElsewhere(c: Setup, l: Lessons, l': Lessons, model: string) {
    forall m | m != model :: AppliedTo(l', m) == AppliedTo(l, m) && ProfileFor(c, l', m) == ProfileFor(c, l, m)
  }

  /** Complete keeps what it knows consistent and forgets nothing, learns only about the
      model it was asked for, and gives up only on an error that teaches nothing more. */
  lemma {:induction false} CompleteLearns(c: Setup, l: Lessons, provider: Provider, req: Payload, used: nat)
    requires Sound(c, l)
    ensures var r := Completed(c, l, provider, req, used);
            && Sound(c, r.lessons)
            && AppliedTo(l, req.model) <= AppliedTo(r.lessons, req.model)
            && SameElsewhere(c, l, r.lessons, req.model)
            && (r.outcome.Failed? ==> Lesson(c, r.lessons, req.model, r.outcome.failure).None?)
    decreases MAX_AUTO_FIXES - |AppliedTo(l, req.model)|
  {
    hide Once, Lesson, Adopt, Sound, AppliedTo, ProfileFor;
    var (outcome, now) := Once(c, l, provider, req, used);
    if outcome.Failed? {
      match Lesson(c, l, req.model, outcome.failure)
      case None =>
      case Some(fix) =>
        AdoptAdds(c, l, req.model, outcome.failure);
        CompleteLearns(c, Adopt(c, l, req.model, fix), provider, req, now);
    }
  }

  // ---- Which attempt decides ----

  /** An answer worth another attempt: no response, through no doing of the client, or one
      that says to come back or that the provider is in trouble. */
  predicate Transient(a: Answer) {
    (a.Lost? && !a.cancelled) || (a.Reply? && (a.status in {408, 409, 425, 429} || a.status >= 500))
  }

  /** What such an answer would be reported as. */
  function Mishap(a: Answer): Failure {
    if a.Lost? then Disconnected else Rejected(a.status, a.body)
  }

  /** Attempts number from..to-1 of the client all failed in passing, and nobody gave up
      between them. */
  ghost predicate AllTransient(provider: Provider, body: Payload, from: nat, to: nat, first: nat) {
    forall k | from <= k < to ::
      Transient(provider(k, body).answer) && (k > first ==> !provider(k, body).gaveUp)
  }

  /** What an answer that is not transient means. */
  function Verdict(a: Answer): Outcome {
    match a
    case Lost(_) => Failed(Gone)
    case Reply(status, text, decodes) =>
      if status >= 400 then Failed(Rejected(status, text)) else if decodes then Done(text) else Failed(Undecodable)
  }

  /** A request is decided by its first answer that is not transient; it is given up when
      the client goes away while waiting; and it is exhausted exactly when every one of
      the allowed attempts was made and all of them failed in passing. */
  lemma {:induction false} FirstLastingAnswerDecides(c: Setup, provider: Provider, body: Payload, used: nat,
                                                     attempt: nat, last: Option<Failure>)
    requires attempt <= used && attempt <= PerRequest(c)
    ensures var (outcome, now) := Tries(c, provider, body, used, attempt, last);
            var first := used - attempt;
            && used <= now <= first + PerRequest(c)
            && if outcome.Failed? && outcome.failure.Exhausted? then
                 && now == first + PerRequest(c) && AllTransient(provider, body, used, now, first)
                 && outcome.failure.last == if used < now then Some(Mishap(provider(now - 1, body).answer)) else last
               else if AllTransient(provider, body, used, now, first) then
                 outcome == Failed(Gone) && first < now < first + PerRequest(c) && provider(now, body).gaveUp
               else
                 && used < now && AllTransient(provider, body, used, now - 1, first)
                 && !Transient(provider(now - 1, body).answer)
                 && outcome == Verdict(provider(now - 1, body).answer)
    decreases c.maxRetries + 1 - attempt
  {
    if attempt <= c.maxRetries {
      var a := provider(used, body);
      if !(attempt > 0 && a.gaveUp) && Transient(a.answer) {
        FirstLastingAnswerDecides(c, provider, body, used + 1, attempt + 1, Some(Mishap(a.answer)));
      }
    }
  }

  // ---- What it costs ----

  lemma {:induction false} TriesAreBounded(c: Setup, provider: Provider, body: Payload, used: nat, attempt: nat,
                                           last: Option<Failure>)
    requires attempt <= PerRequest(c)
    ensures used <= Tries(c, provider, body, used, attempt, last).1 <= used + (PerRequest(c) - attempt)
    decreases c.maxRetries + 1 - attempt
  {
    if attempt <= c.maxRetries {
      var a := provider(used, body).answer;
      if a.Lost? {
        TriesAreBounded(c, provider, body, used + 1, attempt + 1, Some(Disconnected));
      } else {
        TriesAreBounded(c, provider, body, used + 1, attempt + 1, Some(Rejected(a.status, a.body)));
      }
    }
  }

  lemma OnceIsBounded(c: Setup, l: Lessons, provider: Provider, req: Payload, used: nat)
    ensures used <= Once(c, l, provider, req, used).1 <= used + PerRequest(c)
  {
    hide Body, Tries;
    TriesAreBounded(c, provider, Body(ProfileFor(c, l, req.model), req), used, 0, None);
  }

  /** One completion costs one request, and one more for each thing it learned. */
  lemma {:induction false} CompleteIsBounded(c: Setup, l: Lessons, provider: Provider, req: Payload, used: nat)
    requires Sound(c, l)
    ensures var r := Completed(c, l, provider, req, used);
            used <= r.used <= used + (1 + |AppliedTo(r.lessons, req.model)| - |AppliedTo(l, req.model)|) * PerRequest(c)
    decreases MAX_AUTO_FIXES - |AppliedTo(l, req.model)|
  {
    hide Once, Lesson, Adopt, Sound, AppliedTo, ProfileFor, PerRequest;
    OnceIsBounded(c, l, provider, req, used);
    var (outcome, now) := Once(c, l, provider, req, used);
    if outcome.Failed? {
      match Lesson(c, l, req.model, outcome.failure)
      case None =>
      case Some(fix) =>
        var next := Adopt(c, l, req.model, fix);
        AdoptAdds(c, l, req.model, outcome.failure);
        CompleteIsBounded(c, next, provider, req, now);
        var r := Completed(c, next, provider, req, now);
        Distribute(1, 1 + |AppliedTo(r.lessons, req.model)| - |AppliedTo(next, req.model)|, PerRequest(c));
    }
  }

  lemma Distribute(x: int, y: int, z: int)
    ensures (x + y) * z == x * z + y * z
  {
  }

  /** Fixes learned for a list of models. */
  function FixCount(l: Lessons, models: seq<string>): nat {
    if models == [] then 0 else FixCount(l, models[..|models| - 1]) + |AppliedTo(l, models[|models| - 1])|
  }

  ghost predicate Distinct(models: seq<string>) {
    forall i, j | 0 <= i < j < |models| :: models[i] != models[j]
  }

  lemma {:induction false} FixesAreBounded(c: Setup, l: Lessons, models: seq<string>)
    requires Sound(c, l)
    ensures FixCount(l, models) <= MAX_AUTO_FIXES * |models|
  {
    if models != [] {
      FixesAreBounded(c, l, models[..|models| - 1]);
    }
  }

  lemma {:induction false} FixesOfOneModel(l: Lessons, l': Lessons, models: seq<string>, model: string)
    requires Distinct(models)
    requires forall m | m != model :: AppliedTo(l', m) == AppliedTo(l, m)
    ensures FixCount(l', models) ==
              FixCount(l, models) + if model in models then |AppliedTo(l', model)| - |AppliedTo(l, model)| else 0
  {
    if models != [] {
      var init := models[..|models| - 1];
      FixesOfOneModel(l, l', init, model);
      assert models == init + [models[|models| - 1]];
    }
  }

  /** Any number of completions, one after the other. */
  function Calls(c: Setup, l: Lessons, provider: Provider, reqs: seq<Payload>, used: nat): (Lessons, nat)
    decreases reqs
  {
    if reqs == [] then (l, used)
    else
      var r := Completed(c, l, provider, reqs[0], used);
      Calls(c, r.lessons, provider, reqs[1..], r.used)
  }

  lemma {:induction false} CallsAreBounded(c: Setup, l: Lessons, provider: Provider, reqs: seq<Payload>, used: nat,
                                           models: seq<string>)
    requires Sound(c, l) && Distinct(models) && forall r | r in reqs :: r.model in models
    ensures var (l', used') := Calls(c, l, provider, reqs, used);
            && Sound(c, l') && FixCount(l, models) <= FixCount(l', models)
            && used' <= used + (|reqs| + FixCount(l', models) - FixCount(l, models)) * PerRequest(c)
    decreases reqs
  {
    hide Completed, Sound, AppliedTo, FixCount, PerRequest, ProfileFor;
    if reqs != [] {
      assert reqs[0] in reqs;
      var r := Completed(c, l, provider, reqs[0], used);
      CompleteLearns(c, l, provider, reqs[0], used);
      CompleteIsBounded(c, l, provider, reqs[0], used);
      FixesOfOneModel(l, r.lessons, models, reqs[0].model);
      CallsAreBounded(c, r.lessons, provider, reqs[1..], r.used, models);
      var (l', used') := Calls(c, r.lessons, provider, reqs[1..], r.used);
      Distribute(1 + FixCount(r.lessons, models) - FixCount(l, models),
                 |reqs| - 1 + FixCount(l', models) - FixCount(r.lessons, models), PerRequest(c));
    }
  }

  /** Every completion a run asks for, whatever was learned before: at most four per turn
      and three more for each model ever named, times the attempts of one request. */
  lemma RunAttemptsAreBounded(cfg: AgentRun.Config, s: AgentRun.RunState, inputs: seq<AgentRun.Input>,
                              c: Setup, l: Lessons, provider: Provider, reqs: seq<Payload>, used: nat,
                              models: seq<string>)
    requires Estimators.Plausible(s.gauge) && AgentRun.Affordable(cfg, s) && cfg.maxIterations > 0
    requires |reqs| == AgentRun.Run(cfg, s, inputs).completions
    requires Sound(c, l) && Distinct(models) && forall r | r in reqs :: r.model in models
    ensures Calls(c, l, provider, reqs, used).1 - used
            <= (4 * cfg.maxIterations + MAX_AUTO_FIXES * |models|) * PerRequest(c)
  {
    hide Calls, Sound, FixCount, PerRequest, AgentRun.Run;
    AgentRun.RunIsAffordable(cfg, s, inputs);
    CallsAreBounded(c, l, provider, reqs, used, models);
    var (l', used') := Calls(c, l, provider, reqs, used);
    FixesAreBounded(c, l', models);
    Scale(|reqs| + FixCount(l', models) - FixCount(l, models),
          4 * cfg.maxIterations + MAX_AUTO_FIXES * |models|, PerRequest(c));
  }

  lemma Scale(x: int, y: int, z: nat)
    requires x <= y
    ensures x * z <= y * z
  {
  }

  // ---- The code ----

  /** One attempt: what was known when it was made, and what the provider was given. */
  datatype Exchange = Exchange(known: Lessons, body: Payload)

  /** Attempts at one completion: each with a body fit for the provider by the profile then
      in force, which was the first one at first and never had fewer fixes than before. */
  ghost predicate Attempted(c: Setup, start: Lessons, now: Lessons, req: Payload, calls: seq<Exchange>) {
    && (calls != [] ==> calls[0].known == start)
    && forall k | 0 <= k < |calls| ::
         && FitFor(ProfileFor(c, calls[k].known, req.model), req, calls[k].body)
         && AppliedTo(start, req.model) <= AppliedTo(calls[k].known, req.model) <= AppliedTo(now, req.model)
  }

  lemma MoreAttempts(c: Setup, start: Lessons, now: Lessons, req: Payload, calls: seq<Exchange>, all: seq<Exchange>,
                     body: Payload)
    requires Attempted(c, start, now, req, calls) && FitFor(ProfileFor(c, now, req.model), req, body)
    requires calls <= all && forall k | |calls| <= k < |all| :: all[k] == Exchange(now, body)
    requires AppliedTo(start, req.model) <= AppliedTo(now, req.model) && (calls == [] ==> now == start)
    ensures Attempted(c, start, now, req, all)
    ensures |all| > |calls| ==> all[|all| - 1].known == now
  {
    hide FitFor, ProfileFor, AppliedTo;
  }

  lemma AttemptedStill(c: Setup, start: Lessons, now: Lessons, later: Lessons, req: Payload, calls: seq<Exchange>)
    requires Attempted(c, start, now, req, calls) && AppliedTo(now, req.model) <= AppliedTo(later, req.model)
    ensures Attempted(c, start, later, req, calls)
  {
    hide FitFor, ProfileFor, AppliedTo;
  }

  /** Without an attempt there is nothing to learn from. */
  lemma NothingToLearnFrom(c: Setup, provider: Provider, body: Payload, used: nat, l: Lessons, model: string)
    ensures var (outcome, now) := Tries(c, provider, body, used, 0, None);
            if c.maxRetries < 0 then now == used && outcome.Failed? && Lesson(c, l, model, outcome.failure) == None
            else now > used
  {
    if c.maxRetries >= 0 {
      FirstLastingAnswerDecides(c, provider, body, used, 0, None);
    }
  }

  lemma NoAttempts(c: Setup, l: Lessons, req: Payload, calls: seq<Exchange>)
    ensures Attempted(c, l, l, req, calls[|calls|..]) && AppliedTo(l, req.model) <= AppliedTo(l, req.model)
  {
  }

  /** One turn of Complete. */
  lemma CompletedStep(c: Setup, l: Lessons, provider: Provider, req: Payload, used: nat)
    ensures var (outcome, now) := Tries(c, provider, Body(ProfileFor(c, l, req.model), req), used, 0, None);
            Completed(c, l, provider, req, used)
            == if outcome.Done? then Completion(outcome, l, now)
               else
                 match Lesson(c, l, req.model, outcome.failure)
                 case None => Completion(outcome, l, now)
                 case Some(fix) => Completed(c, Adopt(c, l, req.model, fix), provider, req, now)
  {
    hide Tries, Body, Lesson, Adopt;
  }

  lemma AdoptShrinks(c: Setup, l: Lessons, model: string, f: Failure)
    requires Lesson(c, l, model, f).Some?
    ensures var next := Adopt(c, l, model, Lesson(c, l, model, f).value);
            |AppliedTo(l, model)| < |AppliedTo(next, model)| <= MAX_AUTO_FIXES
  {
    hide Adjust, RejectionIn;
  }

  lemma AdoptExtends(c: Setup, l: Lessons, model: string, fix: Fix)
    ensures AppliedTo(l, model) <= AppliedTo(Adopt(c, l, model, fix), model)
  {
    hide Adjust;
  }

  /** used counts the attempts made so far, and calls records them; the code has no such
      fields. */
  class Client {
    const setup: Setup
    const provider: Provider
    var learned: map<string, Profile>
    var applied: map<string, seq<Fix>>
    var used: nat
    ghost var calls: seq<Exchange>

    constructor (setup: Setup, provider: Provider)
      ensures this.setup == setup && this.provider == provider
      ensures Sound(setup, Known()) && Known() == Lessons(map[], map[]) && used == 0 && calls == []
    {
      this.setup, this.provider := setup, provider;
      learned, applied, used := map[], map[], 0;
      calls := [];
    }

    function Known(): Lessons
      reads this
    {
      Lessons(learned, applied)
    }

    method Profile(model: string) returns (p: Profile)
      ensures p == ProfileFor(setup, Known(), model)
    {
      p := if model in learned then learned[model] else setup.profile;
    }

    method LearnFrom(model: string, failure: Failure) returns (again: bool)
      modifies this`learned, this`applied
      ensures match Lesson(setup, old(Known()), model, failure)
              case None => !again && Known() == old(Known())
              case Some(fix) => again && Known() == Adopt(setup, old(Known()), model, fix)
    {
      var upErr := RejectionIn(failure);
      if upErr.None? || upErr.value.status != 400 {
        return false;
      }
      var fix := setup.infer(upErr.value.body);
      if fix.None? {
        return false;
      }
      var already := if model in applied then applied[model] else [];
      var i := 0;
      while i < |already|
        invariant 0 <= i <= |already| && fix.value !in already[..i]
      {
        if already[i] == fix.value {
          return false;
        }
        i := i + 1;
      }
      if |already| >= MAX_AUTO_FIXES {
        return false;
      }
      var base := if model in learned then learned[model] else setup.profile;
      base := Adjust(base, fix.value).(name := Auto(setup.profile));
      learned := learned[model := base];
      applied := applied[model := already + [fix.value]];
      return true;
    }

    /** do, with the decoding of what it returns. */
    method Do(body: Payload) returns (outcome: Outcome)
      modifies this`used, this`calls
      ensures (outcome, used) == Tries(setup, provider, body, old(used), 0, None)
      ensures old(calls) <= calls && |calls| - |old(calls)| == used - old(used)
      ensures forall k | |old(calls)| <= k < |calls| :: calls[k] == Exchange(Known(), body)
    {
      var last := None;
      var attempt := 0;
      while attempt <= setup.maxRetries
        invariant 0 <= attempt
        invariant Tries(setup, provider, body, used, attempt, last) == Tries(setup, provider, body, old(used), 0, None)
        invariant old(calls) <= calls && |calls| - |old(calls)| == used - old(used)
        invariant forall k | |old(calls)| <= k < |calls| :: calls[k] == Exchange(Known(), body)
        decreases setup.maxRetries + 1 - attempt
      {
        var a := provider(used, body);
        if attempt > 0 && a.gaveUp {
          return Failed(Gone);
        }
        used := used + 1;
        calls := calls + [Exchange(Known(), body)];
        match a.answer {
          case Lost(cancelled) =>
            if cancelled {
              return Failed(Gone);
            }
            last := Some(Disconnected);
          case Reply(status, text, decodes) =>
            if status < 400 {
              return if decodes then Done(text) else Failed(Undecodable);
            }
            if !Retryable(status) {
              return Failed(Rejected(status, text));
            }
            last := Some(Rejected(status, text));
        }
        attempt := attempt + 1;
      }
      outcome := Failed(Exhausted(last));
    }

    /** Complete.  The loop ends because each further turn has learned a fix for this
        model that it did not have, and it can have at most three.  Every attempt gives the
        provider a body that is fit for it, by the profile then in force: at first the one
        that was, at last the one that is left, and never with fewer fixes than before. */
    method Complete(req: Request) returns (outcome: Outcome)
      modifies this
      ensures req.Value() == old(req.Value())
      ensures Completion(outcome, Known(), used)
              == Completed(setup, old(Known()), provider, old(req.Value()), old(used))
      ensures old(calls) <= calls && |calls| - |old(calls)| == used - old(used)
      ensures Attempted(setup, old(Known()), Known(), old(req.Value()), calls[|old(calls)|..])
      ensures calls != old(calls) ==> calls[|calls| - 1].known == Known()
    {
      hide Completed, Tries, Lesson, Adopt, Attempted, FitFor, ProfileFor, AppliedTo, Body;
      ghost var start, was, payload := Known(), calls, req.Value();
      NoAttempts(setup, start, payload, calls);
      while true
        invariant req.Value() == payload && req.model == payload.model
        invariant was <= calls && |calls| - |was| == used - old(used)
        invariant Completed(setup, Known(), provider, payload, used)
                  == Completed(setup, start, provider, payload, old(used))
        invariant AppliedTo(start, payload.model) <= AppliedTo(Known(), payload.model)
        invariant (calls == was ==> Known() == start) && (setup.maxRetries < 0 ==> calls == was)
        invariant Attempted(setup, start, Known(), payload, calls[|was|..])
        decreases MAX_AUTO_FIXES - |AppliedTo(Known(), payload.model)|
      {
        var profile := Profile(req.model);
        var body := MakeBody(profile, req);
        BodyFits(profile, payload);
        ghost var known, before, spent := Known(), calls, used;
        outcome := Do(body.Value());
        MoreAttempts(setup, start, known, payload, before[|was|..], calls[|was|..], body.Value());
        CompletedStep(setup, known, provider, payload, spent);
        NothingToLearnFrom(setup, provider, body.Value(), spent, known, payload.model);
        if outcome.Done? {
          return;
        }
        var again := LearnFrom(req.model, outcome.failure);
        if !again {
          return;
        }
        ghost var fix := Lesson(setup, known, payload.model, outcome.failure).value;
        AdoptExtends(setup, known, payload.model, fix);
        AdoptShrinks(setup, known, payload.model, outcome.failure);
        AttemptedStill(setup, start, known, Known(), payload, calls[|was|..]);
      }
    }
  }
}
