/** The self-correcting token estimate (internal/contextmgr/estimate.go), with reals
    for floats. */
module Estimators {
  import opened Text
  import opened Messages

  const INITIAL_RATIO := 3.4
  const ALPHA := 0.3
  const WARMUP_SAMPLES := 3
  const WARMUP_MARGIN := 1.15
  const MIN_RATIO := 1.5
  const MAX_RATIO := 8.0
  const PER_MESSAGE_OVERHEAD := 16

  /** Bytes per token, and how many usage reports went into it. */
  datatype Gauge = Gauge(ratio: real, samples: nat)

  const FRESH := Gauge(INITIAL_RATIO, 0)

  /** A real usage report: bytes sent, prompt tokens billed. */
  datatype Report = Report(bytes: int, tokens: int)

  /** Go's int(x), which drops the fraction towards zero. */
  function Truncate(x: real): int {
    if x >= 0.0 then x.Floor else -((-x).Floor)
  }

  function TokensFor(g: Gauge, bytes: int): int
    requires g.ratio > 0.0
  {
    var est := bytes as real / g.ratio;
    Truncate(if g.samples < WARMUP_SAMPLES then est * WARMUP_MARGIN else est)
  }

  /** The estimate is the bytes over the ratio, rounded down, and a margin of 15 percent on top
      until three reports are in. */
  lemma TokensAre(g: Gauge, bytes: nat)
    requires g.ratio > 0.0
    ensures var est := bytes as real / g.ratio * if g.samples < 3 then 1.15 else 1.0;
            TokensFor(g, bytes) as real <= est < TokensFor(g, bytes) as real + 1.0
  {
    assert bytes as real / g.ratio >= 0.0;
  }

  predicate Accepted(r: Report) {
    r.bytes > 0 && r.tokens > 0 && MIN_RATIO <= Sample(r) <= MAX_RATIO
  }

  function Sample(r: Report): real
    requires r.tokens > 0
  {
    r.bytes as real / r.tokens as real
  }

  function Learn(g: Gauge, r: Report): Gauge {
    if Accepted(r) then Gauge((1.0 - ALPHA) * g.ratio + ALPHA * Sample(r), g.samples + 1) else g
  }

  function LearnAll(g: Gauge, rs: seq<Report>): Gauge {
    if rs == [] then g else Learn(LearnAll(g, rs[..|rs| - 1]), rs[|rs| - 1])
  }

  predicate Plausible(g: Gauge) {
    MIN_RATIO <= g.ratio <= MAX_RATIO
  }

  /** No run of reports, however wild, moves the ratio out of its bounds. */
  lemma {:induction false} RatioStaysPlausible(g: Gauge, rs: seq<Report>)
    requires Plausible(g)
    ensures Plausible(LearnAll(g, rs))
  {
    if rs != [] {
      RatioStaysPlausible(g, rs[..|rs| - 1]);
    }
  }

  function Distance(x: real, lo: real, hi: real): real {
    if x < lo then lo - x else if x > hi then x - hi else 0.0
  }

  function AcceptedCount(rs: seq<Report>): nat {
    if rs == [] then 0
    else AcceptedCount(rs[..|rs| - 1]) + if Accepted(rs[|rs| - 1]) then 1 else 0
  }

  /** A distance after n shrinkings by the factor 1 - ALPHA = 0.7. */
  function Shrunk(n: nat, d: real): real {
    if n == 0 then d else (1.0 - ALPHA) * Shrunk(n - 1, d)
  }

  lemma StepContracts(before: real, x: real, lo: real, hi: real)
    requires lo <= x <= hi
    ensures Distance((1.0 - ALPHA) * before + ALPHA * x, lo, hi) <= (1.0 - ALPHA) * Distance(before, lo, hi)
  {
  }

  /** If the provider's true ratio lies in an interval, every accepted report brings the
      estimate at least a factor 0.7 closer to that interval. */
  lemma {:induction false} RatioConverges(g: Gauge, rs: seq<Report>, lo: real, hi: real)
    requires lo <= hi
    requires forall k | 0 <= k < |rs| && Accepted(rs[k]) :: lo <= Sample(rs[k]) <= hi
    ensures Distance(LearnAll(g, rs).ratio, lo, hi) <= Shrunk(AcceptedCount(rs), Distance(g.ratio, lo, hi))
  {
    if rs != [] {
      var init, last := rs[..|rs| - 1], rs[|rs| - 1];
      RatioConverges(g, init, lo, hi);
      if Accepted(last) {
        StepContracts(LearnAll(g, init).ratio, Sample(last), lo, hi);
      }
    }
  }

  /** A constant tokenizer is approached exactly geometrically. */
  lemma {:induction false} ConstantTokenizer(g: Gauge, r: Report, n: nat)
    requires Accepted(r)
    ensures LearnAll(g, Repeat(r, n)).ratio - Sample(r) == Shrunk(n, g.ratio - Sample(r))
  {
    if n > 0 {
      ConstantTokenizer(g, r, n - 1);
      assert Repeat(r, n)[..n - 1] == Repeat(r, n - 1);
    }
  }

  function Repeat(r: Report, n: nat): seq<Report> {
    seq(n, _ => r)
  }

  class Estimator {
    var ratio: real
    var samples: nat

    function View(): Gauge
      reads this
    {
      Gauge(ratio, samples)
    }

    constructor ()
      ensures View() == FRESH
    {
      ratio, samples := INITIAL_RATIO, 0;
    }

    method Observe(bytes: int, promptTokens: int)
      modifies this
      ensures View() == Learn(old(View()), Report(bytes, promptTokens))
    {
      if bytes <= 0 || promptTokens <= 0 { return; }
      var sample := bytes as real / promptTokens as real;
      if sample < MIN_RATIO || sample > MAX_RATIO { return; }
      ratio := (1.0 - ALPHA) * ratio + ALPHA * sample;
      samples := samples + 1;
    }
  }

  function RoleName(role: Role): string {
    match role
    case System => "system"
    case Developer => "developer"
    case User => "user"
    case Assistant => "assistant"
    case Tool => "tool"
    case OtherRole(name) => name
  }

  function CallBytes(calls: seq<ToolCall>): nat {
    if calls == [] then 0
    else CallBytes(calls[..|calls| - 1])
         + var tc := calls[|calls| - 1]; ByteLen(tc.id) + ByteLen(tc.name) + ByteLen(tc.arguments) + 8
  }

  function MessageBytes(m: Message): nat {
    PER_MESSAGE_OVERHEAD + ByteLen(RoleName(m.role)) + ByteLen(Flatten(m.content))
    + ByteLen(m.name) + ByteLen(m.toolCallID) + CallBytes(m.toolCalls) + ByteLen(m.reasoning)
  }

  /** Every text of a message counts for its bytes, and so does every call; what is left is
      the role and a fixed overhead. */
  lemma EveryTextCounts(m: Message, call: ToolCall)
    ensures MessageBytes(m.(content := Content.Absent)) == MessageBytes(m) - ByteLen(Flatten(m.content))
    ensures MessageBytes(m.(name := "")) == MessageBytes(m) - ByteLen(m.name)
    ensures MessageBytes(m.(toolCallID := "")) == MessageBytes(m) - ByteLen(m.toolCallID)
    ensures MessageBytes(m.(reasoning := "")) == MessageBytes(m) - ByteLen(m.reasoning)
    ensures MessageBytes(m.(toolCalls := m.toolCalls + [call]))
            == MessageBytes(m) + ByteLen(call.id) + ByteLen(call.name) + ByteLen(call.arguments) + 8
    ensures MessageBytes(Message(m.role, Content.Absent, "", [], "", "", m.extra)) == 16 + ByteLen(RoleName(m.role))
  {
    assert (m.toolCalls + [call])[..|m.toolCalls|] == m.toolCalls;
  }

  function Bytes(msgs: seq<Message>): nat {
    if msgs == [] then 0 else Bytes(msgs[..|msgs| - 1]) + MessageBytes(msgs[|msgs| - 1])
  }
}
