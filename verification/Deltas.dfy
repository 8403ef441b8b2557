/** Reassembling streamed tool calls (internal/oai/delta.go). */
module Deltas {
  import opened Wrappers
  import opened Text

  datatype FunctionDelta = FunctionDelta(name: string, arguments: string)

  /** A fragment of a tool call. */
  datatype Delta = Delta(index: Option<int>, id: string, kind: string, fn: Option<FunctionDelta>)

  datatype Entry = Entry(id: string, kind: string, name: string, args: string)

  const BLANK := Entry("", "", "", "")

  type Slots = map<int, Entry>

  /** A finished call. */
  datatype Call = Call(id: string, kind: string, name: string, arguments: string)

  /** Set if empty, and always append. */
  function Fold(e: Entry, d: Delta): Entry {
    Entry(if e.id == "" then d.id else e.id,
          if e.kind == "" then d.kind else e.kind,
          if d.fn.Some? && e.name == "" then d.fn.value.name else e.name,
          if d.fn.Some? then e.args + d.fn.value.arguments else e.args)
  }

  function FoldAll(e: Entry, ds: seq<Delta>): Entry {
    if ds == [] then e else Fold(FoldAll(e, ds[..|ds| - 1]), ds[|ds| - 1])
  }

  function AtLeast(slots: Slots, i: int): set<int> {
    set k | k in slots && k >= i
  }

  /** The least index from i on that has no slot. */
  function FreeFrom(slots: Slots, i: int): (r: int)
    ensures r >= i && r !in slots && forall j | i <= j < r :: j in slots
    ensures r - i <= |AtLeast(slots, i)|
    decreases |AtLeast(slots, i)|
  {
    if i !in slots then i
    else
      assert AtLeast(slots, i) == AtLeast(slots, i + 1) + {i};
      FreeFrom(slots, i + 1)
  }

  ghost predicate HasId(slots: Slots, id: string) {
    exists item :: item in slots.Items && item.1.id == id
  }

  /** The slots a fragment may be resolved to.  An id held by several slots may be found
      in any of them, since the map is searched in no particular order. */
  ghost predicate Resolves(slots: Slots, d: Delta, idx: int) {
    if d.index.Some? then idx == d.index.value
    else if d.id == "" then idx == 0
    else if HasId(slots, d.id) then idx in slots && slots[idx].id == d.id
    else if 0 in slots && slots[0].id != "" then idx == FreeFrom(slots, 0)
    else idx == 0
  }

  function Enter(slots: Slots, d: Delta, idx: int): Slots {
    slots[idx := Fold(if idx in slots then slots[idx] else BLANK, d)]
  }

  /** What an accumulator has been through: fragments, and the slot each went to. */
  datatype Trace = Start | After(before: Trace, d: Delta, idx: int)

  /** The fragments, in order. */
  function Fragments(t: Trace): seq<Delta> {
    match t
    case Start => []
    case After(b, d, _) => Fragments(b) + [d]
  }

  /** The slots after a trace. */
  function Fed(slots: Slots, t: Trace): Slots {
    match t
    case Start => slots
    case After(b, d, idx) => Enter(Fed(slots, b), d, idx)
  }

  /** Every fragment could be resolved to the slot it went to. */
  ghost predicate Resolved(slots: Slots, t: Trace) {
    match t
    case Start => true
    case After(b, d, idx) => Resolved(slots, b) && Resolves(Fed(slots, b), d, idx)
  }

  lemma FedAfter(slots: Slots, t: Trace, d: Delta, idx: int)
    ensures Fragments(After(t, d, idx)) == Fragments(t) + [d]
    ensures Fed(slots, After(t, d, idx)) == Enter(Fed(slots, t), d, idx)
    ensures Resolved(slots, After(t, d, idx)) <==> Resolved(slots, t) && Resolves(Fed(slots, t), d, idx)
  {
  }

  function Then(a: Trace, b: Trace): Trace {
    match b
    case Start => a
    case After(c, d, idx) => After(Then(a, c), d, idx)
  }

  /** Chunk boundaries do not matter: feeding one list and then another is feeding both. */
  lemma {:induction false} FedThen(slots: Slots, a: Trace, b: Trace)
    requires Resolved(slots, a) && Resolved(Fed(slots, a), b)
    ensures Resolved(slots, Then(a, b)) && Fed(slots, Then(a, b)) == Fed(Fed(slots, a), b)
    ensures Fragments(Then(a, b)) == Fragments(a) + Fragments(b)
  {
    match b
    case Start =>
    case After(c, d, idx) => FedThen(slots, a, c);
  }

  ghost predicate Ascending(ix: seq<int>, keys: set<int>) {
    && (forall a, b | 0 <= a < b < |ix| :: ix[a] < ix[b])
    && (forall k :: k in keys <==> k in ix)
  }

  const TOOL_TYPE_FUNCTION := "function"

  function Decimal(i: int): string {
    if i < 0 then "-" + Itoa(-i) else Itoa(i)
  }

  /** What Finalize makes of one slot. */
  function Finish(idx: int, e: Entry): Call {
    Call(if e.id == "" then "call_" + Decimal(idx) else e.id,
         if e.kind == "" then TOOL_TYPE_FUNCTION else e.kind,
         e.name,
         if Trim(e.args) == "" then "{}" else e.args)
  }

  /** A finished call has an id and a type, and arguments that can be decoded; what was there
      is as it was. */
  lemma FinishFillsIn(idx: int, e: Entry)
    ensures var c := Finish(idx, e);
            && c.name == e.name
            && c.id == (if e.id != "" then e.id else "call_" + Decimal(idx))
            && c.kind == (if e.kind != "" then e.kind else "function")
            && (AllSpace(e.args) ==> c.arguments == "{}") && (!AllSpace(e.args) ==> c.arguments == e.args)
  {
    TrimEmpty(e.args);
  }

  ghost predicate Finalized(slots: Slots, out: seq<Call>, ix: seq<int>) {
    && Ascending(ix, slots.Keys) && |out| == |ix|
    && forall k | 0 <= k < |ix| :: ix[k] in slots && out[k] == Finish(ix[k], slots[ix[k]])
  }

  /** There is one ascending order. */
  lemma {:induction false} AscendingUnique(a: seq<int>, b: seq<int>, keys: set<int>)
    requires Ascending(a, keys) && Ascending(b, keys)
    ensures a == b
    decreases |a|
  {
    if a == [] {
      assert forall k | 0 <= k < |b| :: b[k] in keys;
    } else {
      assert a[0] in a;
      assert a[0] in b;
      var j :| 0 <= j < |b| && b[j] == a[0];
      assert b[0] in b;
      assert b[0] in a;
      var i :| 0 <= i < |a| && a[i] == b[0];
      assert a[0] == b[0];
      DropFirst(a, keys);
      DropFirst(b, keys);
      AscendingUnique(a[1..], b[1..], keys - {a[0]});
    }
  }

  lemma DropFirst(a: seq<int>, keys: set<int>)
    requires Ascending(a, keys) && a != []
    ensures Ascending(a[1..], keys - {a[0]})
  {
    forall k ensures k in keys - {a[0]} <==> k in a[1..] {
      if k in keys - {a[0]} {
        var i :| 0 <= i < |a| && a[i] == k;
        assert a[1..][i - 1] == k;
      }
    }
  }

  // ---- Streams that give every fragment its index ----

  /** The fragments that belong to one index. */
  function Own(t: Trace, idx: int): seq<Delta> {
    match t
    case Start => []
    case After(b, d, _) => if d.index == Some(idx) then Own(b, idx) + [d] else Own(b, idx)
  }

  ghost predicate AllIndexed(t: Trace) {
    match t
    case Start => true
    case After(b, d, _) => AllIndexed(b) && d.index.Some?
  }

  lemma FoldSnoc(ds: seq<Delta>, d: Delta)
    ensures FoldAll(BLANK, ds + [d]) == Fold(FoldAll(BLANK, ds), d)
  {
    assert (ds + [d])[..|ds|] == ds;
  }

  /** A slot, or nothing where there is none. */
  function SlotOr(slots: Slots, idx: int): Entry {
    if idx in slots then slots[idx] else BLANK
  }

  /** Each slot is the fold of its own fragments alone, whatever came in between. */
  lemma {:induction false} IndexedSlots(t: Trace, idx: int)
    requires AllIndexed(t) && Resolved(map[], t)
    ensures idx in Fed(map[], t) <==> Own(t, idx) != []
    ensures SlotOr(Fed(map[], t), idx) == FoldAll(BLANK, Own(t, idx))
  {
    match t
    case Start =>
    case After(b, d, _) =>
      IndexedSlots(b, idx);
      FoldSnoc(Own(b, idx), d);
  }

  /** Only each index's own subsequence matters: two streams that agree on those end in
      the same slots, however their fragments are interleaved. */
  lemma InterleavingDoesNotMatter(a: Trace, b: Trace)
    requires AllIndexed(a) && AllIndexed(b) && Resolved(map[], a) && Resolved(map[], b)
    requires forall idx :: Own(a, idx) == Own(b, idx)
    ensures Fed(map[], a) == Fed(map[], b)
  {
    var s, t := Fed(map[], a), Fed(map[], b);
    forall idx ensures (idx in s <==> idx in t) && SlotOr(s, idx) == SlotOr(t, idx) {
      IndexedSlots(a, idx);
      IndexedSlots(b, idx);
    }
    SameSlots(s, t);
  }

  lemma SameSlots(s: Slots, t: Slots)
    requires forall idx :: (idx in s <==> idx in t) && SlotOr(s, idx) == SlotOr(t, idx)
    ensures s == t
  {
    forall idx | idx in s ensures idx in t && s[idx] == t[idx] {
      assert SlotOr(s, idx) == SlotOr(t, idx);
    }
    forall idx | idx in t ensures idx in s {
      assert SlotOr(s, idx) == SlotOr(t, idx);
    }
  }

  function Args(ds: seq<Delta>): string {
    if ds == [] then ""
    else Args(ds[..|ds| - 1]) + if ds[|ds| - 1].fn.Some? then ds[|ds| - 1].fn.value.arguments else ""
  }

  /** Every fragment repeats a field of the call or leaves it empty. */
  ghost predicate Agrees(d: Delta, c: Call) {
    && (d.id == "" || d.id == c.id) && (d.kind == "" || d.kind == c.kind)
    && (d.fn.Some? ==> d.fn.value.name == "" || d.fn.value.name == c.name)
  }

  ghost predicate CarriesId(ds: seq<Delta>, id: string) {
    exists k | 0 <= k < |ds| :: ds[k].id == id
  }

  ghost predicate CarriesKind(ds: seq<Delta>, kind: string) {
    exists k | 0 <= k < |ds| :: ds[k].kind == kind
  }

  ghost predicate CarriesName(ds: seq<Delta>, name: string) {
    exists k | 0 <= k < |ds| :: ds[k].fn.Some? && ds[k].fn.value.name == name
  }

  lemma CarriesSnoc(ds: seq<Delta>, d: Delta, c: Call)
    ensures CarriesId(ds + [d], c.id) <==> CarriesId(ds, c.id) || d.id == c.id
    ensures CarriesKind(ds + [d], c.kind) <==> CarriesKind(ds, c.kind) || d.kind == c.kind
    ensures CarriesName(ds + [d], c.name) <==> CarriesName(ds, c.name) || (d.fn.Some? && d.fn.value.name == c.name)
  {
    var all := ds + [d];
    assert all[|ds|] == d && forall k | 0 <= k < |ds| :: all[k] == ds[k];
  }

  /** The fragments spell the call: together they carry its fields and its arguments. */
  ghost predicate Spells(ds: seq<Delta>, c: Call) {
    && (forall k | 0 <= k < |ds| :: Agrees(ds[k], c))
    && CarriesId(ds, c.id) && CarriesKind(ds, c.kind) && CarriesName(ds, c.name)
    && Args(ds) == c.arguments
  }

  /** An entry that has the call's fields or nothing, as far as they have been carried. */
  function Partial(c: Call, id: bool, kind: bool, name: bool, args: string): Entry {
    Entry(if id then c.id else "", if kind then c.kind else "", if name then c.name else "", args)
  }

  lemma FoldPartial(c: Call, id: bool, kind: bool, name: bool, args: string, d: Delta)
    requires Agrees(d, c)
    ensures Fold(Partial(c, id, kind, name, args), d) ==
              Partial(c, id || d.id == c.id, kind || d.kind == c.kind,
                      name || (d.fn.Some? && d.fn.value.name == c.name),
                      if d.fn.Some? then args + d.fn.value.arguments else args)
  {
  }

  lemma {:induction false} FoldSpells(ds: seq<Delta>, c: Call)
    requires forall k | 0 <= k < |ds| :: Agrees(ds[k], c)
    ensures FoldAll(BLANK, ds)
            == Partial(c, CarriesId(ds, c.id), CarriesKind(ds, c.kind), CarriesName(ds, c.name), Args(ds))
  {
    if ds != [] {
      var init, d := ds[..|ds| - 1], ds[|ds| - 1];
      assert forall k | 0 <= k < |init| :: init[k] == ds[k];
      assert Agrees(d, c);
      hide CarriesId, CarriesKind, CarriesName, Fold, Partial, Agrees;
      FoldSpells(init, c);
      CarriesSnoc(init, d, c);
      assert ds == init + [d];
      FoldPartial(c, CarriesId(init, c.id), CarriesKind(init, c.kind), CarriesName(init, c.name), Args(init), d);
      assert Args(init) + "" == Args(init);
    }
  }

  /** Real calls have an id, a type and arguments that are not blank. */
  ghost predicate Whole(c: Call) {
    c.id != "" && c.kind != "" && Trim(c.arguments) != ""
  }

  /** Every fragment has an index, and it is that of one of the calls. */
  ghost predicate Addressed(t: Trace, calls: map<int, Call>) {
    match t
    case Start => true
    case After(b, d, _) => Addressed(b, calls) && d.index.Some? && d.index.value in calls
  }

  /** Cut any calls into fragments in any way, mix the fragments of different calls in
      any way: finalizing gives back exactly the calls, in index order. */
  lemma FragmentationRoundTrip(calls: map<int, Call>, t: Trace, out: seq<Call>, ix: seq<int>)
    requires forall i | i in calls :: Whole(calls[i]) && Spells(Own(t, i), calls[i])
    requires Addressed(t, calls) && Resolved(map[], t) && Finalized(Fed(map[], t), out, ix)
    ensures Ascending(ix, calls.Keys) && |out| == |ix|
    ensures forall k | 0 <= k < |ix| :: ix[k] in calls && out[k] == calls[ix[k]]
  {
    SameIndices(calls, t);
    forall k | 0 <= k < |ix| ensures ix[k] in calls && out[k] == calls[ix[k]] {
      SlotSpells(t, ix[k], calls[ix[k]]);
    }
  }

  lemma SameIndices(calls: map<int, Call>, t: Trace)
    requires forall i | i in calls :: Spells(Own(t, i), calls[i])
    requires Addressed(t, calls) && Resolved(map[], t)
    ensures AllIndexed(t) && Fed(map[], t).Keys == calls.Keys
  {
    var slots := Fed(map[], t);
    forall i ensures AllIndexed(t) && (i in calls <==> i in slots) {
      OwnIsIndexed(t, calls, i);
      IndexedSlots(t, i);
      if i in calls { SpellsSomething(Own(t, i), calls[i]); }
    }
  }

  lemma SpellsSomething(ds: seq<Delta>, c: Call)
    requires Spells(ds, c)
    ensures ds != []
  {
  }

  lemma SlotSpells(t: Trace, i: int, c: Call)
    requires AllIndexed(t) && Resolved(map[], t) && i in Fed(map[], t)
    requires Whole(c) && Spells(Own(t, i), c)
    ensures Finish(i, Fed(map[], t)[i]) == c
  {
    IndexedSlots(t, i);
    FoldSpells(Own(t, i), c);
  }

  lemma {:induction false} OwnIsIndexed(t: Trace, calls: map<int, Call>, idx: int)
    requires Addressed(t, calls)
    ensures AllIndexed(t) && (Own(t, idx) != [] ==> idx in calls)
  {
    if t.After? { OwnIsIndexed(t.before, calls, idx); }
  }

  // ---- Streams that give every fragment its id and none its index ----

  ghost predicate AllNamed(t: Trace) {
    match t
    case Start => true
    case After(b, d, _) => AllNamed(b) && d.index.None? && d.id != ""
  }

  /** The ids, in the order they first appear. */
  function FirstIds(t: Trace): seq<string> {
    match t
    case Start => []
    case After(b, d, _) => if d.id in FirstIds(b) then FirstIds(b) else FirstIds(b) + [d.id]
  }

  function OwnId(t: Trace, id: string): seq<Delta> {
    match t
    case Start => []
    case After(b, d, _) => if d.id == id then OwnId(b, id) + [d] else OwnId(b, id)
  }

  /** Slots 0, 1, 2, ... hold these ids, which are distinct. */
  ghost predicate Numbered(ids: seq<string>, slots: Slots) {
    && (forall a, b | 0 <= a < b < |ids| :: ids[a] != ids[b])
    && (forall k :: k in slots <==> 0 <= k < |ids|)
    && forall k | 0 <= k < |ids| :: slots[k].id == ids[k] != ""
  }

  lemma NumberedFree(ids: seq<string>, slots: Slots)
    requires Numbered(ids, slots)
    ensures FreeFrom(slots, 0) == |ids|
  {
    assert |ids| !in slots;
  }

  lemma NumberedHasId(ids: seq<string>, slots: Slots, id: string)
    requires Numbered(ids, slots)
    ensures HasId(slots, id) <==> id in ids
  {
    if id in ids {
      var k :| 0 <= k < |ids| && ids[k] == id;
      assert (k, slots[k]) in slots.Items;
    }
    if HasId(slots, id) {
      var item :| item in slots.Items && item.1.id == id;
      assert ids[item.0] == id;
    }
  }

  /** The resolved slot is that of the id, or the next one if the id is new. */
  lemma ResolvesNumbered(ids: seq<string>, slots: Slots, d: Delta, at: int)
    requires Numbered(ids, slots) && d.index.None? && d.id != "" && Resolves(slots, d, at)
    ensures d.id in ids ==> 0 <= at < |ids| && ids[at] == d.id
    ensures d.id !in ids ==> at == |ids|
  {
    NumberedHasId(ids, slots, d.id);
    NumberedFree(ids, slots);
  }

  lemma EnterNumbered(ids: seq<string>, slots: Slots, d: Delta, at: int)
    requires Numbered(ids, slots) && d.id != ""
    requires if d.id in ids then 0 <= at < |ids| && ids[at] == d.id else at == |ids|
    ensures Numbered(if d.id in ids then ids else ids + [d.id], Enter(slots, d, at))
  {
  }

  lemma {:induction false} FirstIdsOwnSomething(t: Trace, id: string)
    ensures id in FirstIds(t) <==> OwnId(t, id) != []
  {
    if t.After? { FirstIdsOwnSomething(t.before, id); }
  }

  /** A stream without indices whose fragments all carry their id comes out right: slots
      are contiguous, ids distinct and in order of first appearance. */
  lemma {:induction false} IndexlessNumbered(t: Trace)
    requires AllNamed(t) && Resolved(map[], t)
    ensures Numbered(FirstIds(t), Fed(map[], t))
  {
    match t
    case Start =>
    case After(b, d, idx) =>
      IndexlessNumbered(b);
      ResolvesNumbered(FirstIds(b), Fed(map[], b), d, idx);
      EnterNumbered(FirstIds(b), Fed(map[], b), d, idx);
  }

  function NextIds(ids: seq<string>, d: Delta): seq<string> {
    if d.id in ids then ids else ids + [d.id]
  }

  /** One fragment extends the slot of its own id and leaves the others alone. */
  lemma EnteredSlot(ids: seq<string>, slots: Slots, d: Delta, at: int, k: int)
    requires Numbered(ids, slots) && 0 <= k < |NextIds(ids, d)|
    requires if d.id in ids then 0 <= at < |ids| && ids[at] == d.id else at == |ids|
    ensures SlotOr(Enter(slots, d, at), k) ==
              if NextIds(ids, d)[k] == d.id then Fold(SlotOr(slots, k), d) else SlotOr(slots, k)
    ensures k == |ids| ==> SlotOr(slots, k) == BLANK && NextIds(ids, d)[k] == d.id
  {
    hide Fold;
  }

  /** Every call has its own fragments and no others. */
  lemma {:induction false} IndexlessSlots(t: Trace, k: int)
    requires AllNamed(t) && Resolved(map[], t) && 0 <= k < |FirstIds(t)|
    ensures SlotOr(Fed(map[], t), k) == FoldAll(BLANK, OwnId(t, FirstIds(t)[k]))
  {
    hide Fold, FoldAll, Enter, SlotOr, Numbered, Resolves, FreeFrom, HasId;
    var b, d, id := t.before, t.d, FirstIds(t)[k];
    var ids := FirstIds(b);
    IndexlessNumbered(b);
    ResolvesNumbered(ids, Fed(map[], b), d, t.idx);
    assert FirstIds(t) == NextIds(ids, d);
    EnteredSlot(ids, Fed(map[], b), d, t.idx, k);
    FoldSnoc(OwnId(b, id), d);
    if k < |ids| {
      assert NextIds(ids, d)[k] == ids[k];
      IndexlessSlots(b, k);
    } else {
      FirstIdsOwnSomething(b, id);
      FoldNothing();
    }
  }

  lemma FoldNothing()
    ensures FoldAll(BLANK, []) == BLANK
  {
  }

  /** So the finished calls are the ids in order of first appearance, each with the
      concatenation of its own argument fragments. */
  lemma IndexlessCalls(t: Trace, out: seq<Call>, ix: seq<int>)
    requires AllNamed(t) && Resolved(map[], t) && Finalized(Fed(map[], t), out, ix)
    ensures |out| == |FirstIds(t)|
    ensures forall k | 0 <= k < |out| ::
              out[k].id == FirstIds(t)[k]
              && (Trim(Args(OwnId(t, out[k].id))) != "" ==> out[k].arguments == Args(OwnId(t, out[k].id)))
  {
    IndexlessNumbered(t);
    AscendingUnique(ix, UpTo(|FirstIds(t)|), Fed(map[], t).Keys);
    forall k | 0 <= k < |out|
      ensures k in Fed(map[], t) && Fed(map[], t)[k].args == Args(OwnId(t, FirstIds(t)[k]))
    {
      IndexlessSlots(t, k);
      FoldArgs(OwnId(t, FirstIds(t)[k]));
    }
  }

  function UpTo(n: nat): (s: seq<int>)
    ensures |s| == n && forall k | 0 <= k < n :: s[k] == k
    ensures forall k :: k in s <==> 0 <= k < n
  {
    if n == 0 then [] else UpTo(n - 1) + [n - 1]
  }

  lemma {:induction false} FoldArgs(ds: seq<Delta>)
    ensures FoldAll(BLANK, ds).args == Args(ds)
  {
    if ds != [] { FoldArgs(ds[..|ds| - 1]); }
  }

  // ---- Streams that give the id on some fragments and never an index ----

  ghost predicate NoIndex(t: Trace) {
    match t
    case Start => true
    case After(b, d, _) => NoIndex(b) && d.index.None?
  }

  /** The first fragment has an id. */
  ghost predicate BeginsNamed(t: Trace) {
    match t
    case Start => true
    case After(b, d, _) => if b.Start? then d.id != "" else BeginsNamed(b)
  }

  /** The ids that appeared, in the order they first did. */
  function NamedIds(t: Trace): seq<string> {
    match t
    case Start => []
    case After(b, d, _) => if d.id == "" || d.id in NamedIds(b) then NamedIds(b) else NamedIds(b) + [d.id]
  }

  function LastId(t: Trace): string {
    match t
    case Start => ""
    case After(b, d, _) => if d.id == "" then LastId(b) else d.id
  }

  /** The call a fragment continues: its own, or the one named last. */
  function Continued(b: Trace, d: Delta): string {
    if d.id == "" then LastId(b) else d.id
  }

  /** Every fragment went to the slot of the call it continues. */
  ghost predicate FiledRight(t: Trace) {
    match t
    case Start => true
    case After(b, d, idx) =>
      FiledRight(b) && idx in Fed(map[], t) && Fed(map[], t)[idx].id == Continued(b, d)
  }

  /** Fragments without an id come only while the call named last is the first one. */
  ghost predicate NamelessInFirst(t: Trace) {
    match t
    case Start => true
    case After(b, d, _) => NamelessInFirst(b) && (d.id == "" ==> NamedIds(b) != [] && LastId(b) == NamedIds(b)[0])
  }

  lemma {:induction false} BeginsWithIds(t: Trace)
    requires BeginsNamed(t) && t != Start
    ensures NamedIds(t) != [] && LastId(t) in NamedIds(t) && "" !in NamedIds(t)
  {
    if t.before != Start { BeginsWithIds(t.before); }
  }

  lemma EnterNameless(ids: seq<string>, slots: Slots, d: Delta, at: int)
    requires Numbered(ids, slots) && ids != [] && d.index.None? && d.id == "" && Resolves(slots, d, at)
    ensures at == 0 && Numbered(ids, Enter(slots, d, at)) && Enter(slots, d, at)[at].id == ids[0]
  {
  }

  /** Without indices, fragments are filed with the call they continue exactly when those
      without an id continue the first call. */
  lemma {:induction false} NamelessFiledRightIff(t: Trace)
    requires NoIndex(t) && BeginsNamed(t) && Resolved(map[], t)
    ensures Numbered(NamedIds(t), Fed(map[], t))
    ensures FiledRight(t) <==> NamelessInFirst(t)
  {
    match t
    case Start =>
    case After(b, d, at) =>
      NamelessFiledRightIff(b);
      var ids, slots := NamedIds(b), Fed(map[], b);
      if d.id == "" {
        BeginsWithIds(b);
        EnterNameless(ids, slots, d, at);
      } else {
        ResolvesNumbered(ids, slots, d, at);
        EnterNumbered(ids, slots, d, at);
        NamedEntered(ids, slots, d, at);
      }
  }

  lemma NamedEntered(ids: seq<string>, slots: Slots, d: Delta, at: int)
    requires Numbered(ids, slots) && d.id != ""
    requires if d.id in ids then 0 <= at < |ids| && ids[at] == d.id else at == |ids|
    ensures at in Enter(slots, d, at) && Enter(slots, d, at)[at].id == d.id
  {
  }

  /** The fragments that continue a call, in order. */
  function Continuing(t: Trace, id: string): seq<Delta> {
    match t
    case Start => []
    case After(b, d, _) => if Continued(b, d) == id then Continuing(b, id) + [d] else Continuing(b, id)
  }

  lemma {:induction false} ContinuingNothing(t: Trace, id: string)
    requires BeginsNamed(t) && id !in NamedIds(t) && id != ""
    ensures Continuing(t, id) == []
  {
    if t.After? && t.before != Start {
      ContinuingNothing(t.before, id);
      BeginsWithIds(t.before);
    }
  }

  /** And then every call comes out whole: its slot is the fold of what continues it. */
  lemma {:induction false} NamelessSlots(t: Trace, k: int)
    requires NoIndex(t) && BeginsNamed(t) && Resolved(map[], t) && NamelessInFirst(t) && 0 <= k < |NamedIds(t)|
    ensures SlotOr(Fed(map[], t), k) == FoldAll(BLANK, Continuing(t, NamedIds(t)[k]))
  {
    hide Fold, FoldAll, Enter, SlotOr, Numbered, Resolves, FreeFrom, HasId;
    var b, d, id := t.before, t.d, NamedIds(t)[k];
    var ids, slots := NamedIds(b), Fed(map[], b);
    NamelessFiledRightIff(b);
    FoldSnoc(Continuing(b, id), d);
    if d.id == "" {
      BeginsWithIds(b);
      NamelessSlot(ids, slots, d, t.idx, k);
      NamelessSlots(b, k);
    } else {
      ResolvesNumbered(ids, slots, d, t.idx);
      EnteredSlot(ids, slots, d, t.idx, k);
      assert NamedIds(t) == NextIds(ids, d);
      if k < |ids| {
        assert NextIds(ids, d)[k] == ids[k];
        NamelessSlots(b, k);
      } else {
        ContinuingNothing(b, id);
        FoldNothing();
      }
    }
  }

  lemma NamelessSlot(ids: seq<string>, slots: Slots, d: Delta, at: int, k: int)
    requires Numbered(ids, slots) && ids != [] && 0 <= k < |ids| && d.index.None? && d.id == ""
             && Resolves(slots, d, at)
    ensures SlotOr(Enter(slots, d, at), k) == if ids[k] == ids[0] then Fold(SlotOr(slots, k), d) else SlotOr(slots, k)
  {
    hide Fold;
    EnterNameless(ids, slots, d, at);
  }

  const FIRST := Delta(None, "a", "", Some(FunctionDelta("f", "1")))
  const SECOND := Delta(None, "b", "", Some(FunctionDelta("g", "2")))
  const CONTINUATION := Delta(None, "", "", Some(FunctionDelta("", "3")))

  /** A fragment with neither index nor id lands in slot 0 whatever call it continues, so
      ids on first fragments alone are not enough: here the second call's arguments are
      appended to the first call's. */
  lemma NamelessContinuationIsMisfiled(i: int, j: int, k: int)
    requires Resolved(map[], After(After(After(Start, FIRST, i), SECOND, j), CONTINUATION, k))
    ensures Fed(map[], After(After(After(Start, FIRST, i), SECOND, j), CONTINUATION, k))
            == map[0 := Entry("a", "", "f", "13"), 1 := Entry("b", "", "g", "2")]
  {
    var x := After(Start, FIRST, i);
    var y := After(x, SECOND, j);
    var e, f, g := Entry("a", "", "f", "1"), Entry("b", "", "g", "2"), Entry("a", "", "f", "13");
    ThreeFolds(e, f, g);
    FedAfter(map[], Start, FIRST, i);
    FedAfter(map[], x, SECOND, j);
    FedAfter(map[], y, CONTINUATION, k);
    assert Fed(map[], Start) == map[];
    hide Fed, Resolved, Fold, HasId, FreeFrom;
    NumberedHasId([], map[], "a");
    assert Fed(map[], x) == map[0 := e];
    NumberedHasId(["a"], map[0 := e], "b");
    NumberedFree(["a"], map[0 := e]);
    assert Fed(map[], y) == map[0 := e, 1 := f];
    assert k == 0;
  }

  lemma ThreeFolds(e: Entry, f: Entry, g: Entry)
    requires e == Entry("a", "", "f", "1") && f == Entry("b", "", "g", "2") && g == Entry("a", "", "f", "13")
    ensures Fold(BLANK, FIRST) == e
    ensures Fold(BLANK, SECOND) == f
    ensures Fold(e, CONTINUATION) == g
  {
    assert "" + "1" == "1" && "" + "2" == "2" && "1" + "3" == "13";
  }

  // ---- The accumulators ----

  class ToolCallAccumulator {
    var byIndex: Slots
    var order: seq<int>

    ghost predicate Valid()
      reads this
    {
      && |order| == |byIndex| && (forall k | 0 <= k < |order| :: order[k] in byIndex)
      && forall a, b | 0 <= a < b < |order| :: order[a] != order[b]
    }

    constructor ()
      ensures Valid() && byIndex == map[]
    {
      byIndex, order := map[], [];
    }

    method Add(deltas: seq<Delta>) returns (ghost t: Trace)
      requires Valid()
      modifies this
      ensures Valid() && Fragments(t) == deltas
      ensures Resolved(old(byIndex), t) && byIndex == Fed(old(byIndex), t)
    {
      ghost var before := byIndex;
      t := Start;
      for k := 0 to |deltas|
        invariant Valid() && Fragments(t) == deltas[..k]
        invariant Resolved(before, t) && byIndex == Fed(before, t)
      {
        hide *;
        var idx := AddOne(deltas[k]);
        FedAfter(before, t, deltas[k], idx);
        assert deltas[..k + 1] == deltas[..k] + [deltas[k]];
        t := After(t, deltas[k], idx);
      }
    }

    method AddOne(d: Delta) returns (idx: int)
      requires Valid()
      modifies this
      ensures Valid() && Resolves(old(byIndex), d, idx) && byIndex == Enter(old(byIndex), d, idx)
    {
      idx := EntryFor(d);
      byIndex := byIndex[idx := Fold(byIndex[idx], d)];
    }

    /** The slot of a fragment, created if need be. */
    method EntryFor(d: Delta) returns (idx: int)
      requires Valid()
      modifies this
      ensures Valid() && Resolves(old(byIndex), d, idx)
      ensures idx in byIndex && byIndex == if idx in old(byIndex) then old(byIndex) else old(byIndex)[idx := BLANK]
    {
      idx := 0;
      if d.index.Some? {
        idx := d.index.value;
      } else if d.id != "" {
        var found := IndexOfID(d.id);
        if 0 in byIndex { assert (0, byIndex[0]) in byIndex.Items; }
        if found.Some? {
          idx := found.value;
        } else if 0 in byIndex && byIndex[0].id != "" && byIndex[0].id != d.id {
          idx := NextFreeIndex();
        }
      }
      if idx !in byIndex {
        byIndex := byIndex[idx := BLANK];
        order := order + [idx];
      }
    }

    /** Looks through the map in whatever order it yields its entries. */
    method IndexOfID(id: string) returns (found: Option<int>)
      ensures found.Some? ==> found.value in byIndex && byIndex[found.value].id == id
      ensures found.Some? <==> HasId(byIndex, id)
    {
      var pending := byIndex.Items;
      while pending != {}
        invariant pending <= byIndex.Items
        invariant forall item | item in byIndex.Items && item !in pending :: item.1.id != id
        decreases pending
      {
        var item :| item in pending;
        if item.1.id == id {
          return Some(item.0);
        }
        pending := pending - {item};
      }
      assert !HasId(byIndex, id) by {
        forall i | i in byIndex ensures byIndex[i].id != id { assert (i, byIndex[i]) in byIndex.Items; }
      }
      return None;
    }

    /** The unbounded search ends within as many probes as there are entries. */
    method NextFreeIndex() returns (i: int)
      ensures i == FreeFrom(byIndex, 0) && 0 <= i <= |byIndex|
    {
      i := 0;
      while i in byIndex
        invariant i >= 0 && FreeFrom(byIndex, 0) == FreeFrom(byIndex, i)
        decreases |AtLeast(byIndex, i)|
      {
        assert AtLeast(byIndex, i) == AtLeast(byIndex, i + 1) + {i};
        i := i + 1;
      }
      SubsetSize(AtLeast(byIndex, 0), byIndex.Keys);
    }

    method Finalize() returns (out: seq<Call>)
      ensures exists ix :: Finalized(byIndex, out, ix)
    {
      var indices := SortedKeys(byIndex);
      out := [];
      for k := 0 to |indices|
        invariant |out| == k && forall j | 0 <= j < k :: out[j] == Finish(indices[j], byIndex[indices[j]])
      {
        assert indices[k] in indices;
        out := out + [Finish(indices[k], byIndex[indices[k]])];
      }
      assert forall k | 0 <= k < |indices| :: indices[k] in indices;
      assert Finalized(byIndex, out, indices);
    }
  }

  lemma SubsetSize(a: set<int>, b: set<int>)
    requires a <= b
    ensures |a| <= |b|
  {
    assert b == a + (b - a);
  }

  /** sort.Ints over the keys of the map, collected in whatever order it yields them. */
  method SortedKeys(slots: Slots) returns (ix: seq<int>)
    ensures Ascending(ix, slots.Keys)
  {
    ix := [];
    var pending := slots.Items;
    ghost var done: set<int> := {};
    while pending != {}
      invariant pending <= slots.Items && Ascending(ix, done)
      invariant forall i :: i in done <==> i in slots && (i, slots[i]) !in pending
      decreases pending
    {
      var item :| item in pending;
      assert item == (item.0, slots[item.0]);
      InsertAscending(ix, item.0, done);
      ix := Insert(ix, item.0);
      done := done + {item.0};
      pending := pending - {item};
    }
    forall i ensures i in slots.Keys <==> i in ix {
      if i in slots { assert (i, slots[i]) !in pending; }
    }
  }

  function Insert(ix: seq<int>, x: int): seq<int> {
    if ix == [] || x < ix[0] then [x] + ix else [ix[0]] + Insert(ix[1..], x)
  }

  lemma {:induction false} InsertMembers(ix: seq<int>, x: int, k: int)
    ensures k in Insert(ix, x) <==> k == x || k in ix
  {
    if !(ix == [] || x < ix[0]) {
      InsertMembers(ix[1..], x, k);
      assert ix == [ix[0]] + ix[1..];
    }
  }

  lemma {:induction false} InsertAscending(ix: seq<int>, x: int, keys: set<int>)
    requires Ascending(ix, keys) && x !in keys
    ensures Ascending(Insert(ix, x), keys + {x})
    decreases |ix|
  {
    forall k ensures k in keys + {x} <==> k in Insert(ix, x) { InsertMembers(ix, x, k); }
    if !(ix == [] || x < ix[0]) {
      DropFirst(ix, keys);
      assert ix[0] in keys && ix[0] in ix;
      InsertAscending(ix[1..], x, keys - {ix[0]});
      var rest := Insert(ix[1..], x);
      forall b | 0 <= b < |rest| ensures ix[0] < rest[b] {
        InsertMembers(ix[1..], x, rest[b]);
        assert rest[b] in rest;
      }
    }
  }

  /** One choice of a streamed chunk: its index, its delta and its finish reason.  The
      harness part of a delta carries progress events, which no client reads as text. */
  datatype Choice = Choice(
    index: int,
    role: string,
    content: Option<string>,
    reasoning: Option<string>,
    toolCalls: seq<Delta>,
    harness: string,
    finish: Option<string>)

  /** The identity fields of a stream. */
  datatype Identity = Identity(id: string, kind: string, created: int, model: string, fingerprint: string)

  datatype Chunk = Chunk(identity: Identity, choices: seq<Choice>, usage: Option<int>)

  /** What choice 0, the only one an agent run has, adds to the message. */
  function OwnText(c: Choice): string {
    if c.index == 0 && c.content.Some? then c.content.value else ""
  }

  function OwnReasoning(c: Choice): string {
    if c.index == 0 && c.reasoning.Some? then c.reasoning.value else ""
  }

  function OwnDeltas(c: Choice): seq<Delta> {
    if c.index == 0 then c.toolCalls else []
  }

  function TextOf(choices: seq<Choice>): string {
    if choices == [] then "" else TextOf(choices[..|choices| - 1]) + OwnText(choices[|choices| - 1])
  }

  function ReasoningOf(choices: seq<Choice>): string {
    if choices == [] then "" else ReasoningOf(choices[..|choices| - 1]) + OwnReasoning(choices[|choices| - 1])
  }

  function DeltasOf(choices: seq<Choice>): seq<Delta> {
    if choices == [] then [] else DeltasOf(choices[..|choices| - 1]) + OwnDeltas(choices[|choices| - 1])
  }

  /** The last role named, and the first finish reason given. */
  function RoleAfter(role: string, choices: seq<Choice>): string {
    if choices == [] then role
    else
      var c := choices[|choices| - 1];
      if c.index == 0 && c.role != "" then c.role else RoleAfter(role, choices[..|choices| - 1])
  }

  function FinishAfter(finish: Option<string>, choices: seq<Choice>): Option<string> {
    if choices == [] then finish
    else
      var before := FinishAfter(finish, choices[..|choices| - 1]);
      var c := choices[|choices| - 1];
      if before.None? && c.index == 0 then c.finish else before
  }

  function FirstText(a: string, b: string): string {
    if a != "" then a else b
  }

  /** Each field keeps the first value that is not empty. */
  function Identified(a: Identity, b: Identity): Identity {
    Identity(FirstText(a.id, b.id), FirstText(a.kind, b.kind), if a.created != 0 then a.created else b.created,
             FirstText(a.model, b.model), FirstText(a.fingerprint, b.fingerprint))
  }

  /** An assembled assistant message; no text stands for a null content. */
  datatype Assembled = Assembled(role: string, text: Option<string>, reasoning: string, calls: seq<Call>)

  class StreamAccumulator {
    var identity: Identity
    var role: string
    var finishReason: Option<string>
    var usage: Option<int>
    var content: string
    var reasoning: string
    var chunks: nat
    const tools: ToolCallAccumulator

    constructor ()
      ensures content == reasoning == role == "" && finishReason == None && usage == None && chunks == 0
      ensures identity == Identity("", "", 0, "", "")
      ensures fresh(tools) && tools.Valid() && tools.byIndex == map[]
    {
      identity, role, finishReason, usage := Identity("", "", 0, "", ""), "", None, None;
      content, reasoning, chunks := "", "", 0;
      tools := new ToolCallAccumulator();
    }

    /** Text, reasoning and fragments are only ever appended, so how a stream is cut into
        chunks leaves no trace. */
    method Add(c: Chunk) returns (ghost t: Trace)
      requires tools.Valid()
      modifies this, tools
      ensures chunks == old(chunks) + 1 && identity == Identified(old(identity), c.identity)
      ensures usage == (if c.usage.Some? then c.usage else old(usage))
      ensures content == old(content) + TextOf(c.choices) && reasoning == old(reasoning) + ReasoningOf(c.choices)
      ensures role == RoleAfter(old(role), c.choices) && finishReason == FinishAfter(old(finishReason), c.choices)
      ensures tools.Valid() && Fragments(t) == DeltasOf(c.choices)
      ensures Resolved(old(tools.byIndex), t) && tools.byIndex == Fed(old(tools.byIndex), t)
    {
      chunks := chunks + 1;
      AddIdentity(c.identity);
      if c.usage.Some? { usage := c.usage; }
      t := AddChoices(c.choices);
    }

    method AddIdentity(i: Identity)
      modifies this`identity
      ensures identity == Identified(old(identity), i)
    {
      if identity.id == "" { identity := identity.(id := i.id); }
      if identity.kind == "" { identity := identity.(kind := i.kind); }
      if identity.created == 0 { identity := identity.(created := i.created); }
      if identity.model == "" { identity := identity.(model := i.model); }
      if identity.fingerprint == "" { identity := identity.(fingerprint := i.fingerprint); }
    }

    method AddChoices(choices: seq<Choice>) returns (ghost t: Trace)
      requires tools.Valid()
      modifies this`content, this`reasoning, this`role, this`finishReason, tools
      ensures content == old(content) + TextOf(choices) && reasoning == old(reasoning) + ReasoningOf(choices)
      ensures role == RoleAfter(old(role), choices) && finishReason == FinishAfter(old(finishReason), choices)
      ensures tools.Valid() && Fragments(t) == DeltasOf(choices)
      ensures Resolved(old(tools.byIndex), t) && tools.byIndex == Fed(old(tools.byIndex), t)
    {
      ghost var before := tools.byIndex;
      t := Start;
      assert Fragments(t) == [] && Resolved(before, t) && before == Fed(before, t);
      for k := 0 to |choices|
        invariant content == old(content) + TextOf(choices[..k])
        invariant reasoning == old(reasoning) + ReasoningOf(choices[..k])
        invariant role == RoleAfter(old(role), choices[..k])
        invariant finishReason == FinishAfter(old(finishReason), choices[..k])
        invariant tools.Valid() && Fragments(t) == DeltasOf(choices[..k])
        invariant Resolved(before, t) && tools.byIndex == Fed(before, t)
      {
        hide *;
        ChoicesSnoc(choices, k, old(content), old(reasoning), old(role), old(finishReason));
        ghost var more := AddChoice(choices[k]);
        FedThen(before, t, more);
        t := Then(t, more);
      }
      assert choices[..|choices|] == choices;
    }

    lemma ChoicesSnoc(choices: seq<Choice>, k: nat, text: string, reasoning: string, role: string,
                      finish: Option<string>)
      requires k < |choices|
      ensures text + TextOf(choices[..k + 1]) == text + TextOf(choices[..k]) + OwnText(choices[k])
      ensures reasoning + ReasoningOf(choices[..k + 1])
              == reasoning + ReasoningOf(choices[..k]) + OwnReasoning(choices[k])
      ensures DeltasOf(choices[..k + 1]) == DeltasOf(choices[..k]) + OwnDeltas(choices[k])
      ensures RoleAfter(role, choices[..k + 1])
              == if choices[k].index == 0 && choices[k].role != "" then choices[k].role
                 else RoleAfter(role, choices[..k])
      ensures FinishAfter(finish, choices[..k + 1])
              == if FinishAfter(finish, choices[..k]).None? && choices[k].index == 0 then choices[k].finish
                 else FinishAfter(finish, choices[..k])
    {
      assert choices[..k + 1][..k] == choices[..k];
    }

    method AddChoice(choice: Choice) returns (ghost t: Trace)
      requires tools.Valid()
      modifies this`content, this`reasoning, this`role, this`finishReason, tools
      ensures content == old(content) + OwnText(choice) && reasoning == old(reasoning) + OwnReasoning(choice)
      ensures role == (if choice.index == 0 && choice.role != "" then choice.role else old(role))
      ensures finishReason
              == (if old(finishReason).None? && choice.index == 0 then choice.finish else old(finishReason))
      ensures tools.Valid() && Fragments(t) == OwnDeltas(choice)
      ensures Resolved(old(tools.byIndex), t) && tools.byIndex == Fed(old(tools.byIndex), t)
    {
      t := Start;
      assert Fragments(t) == [] && Resolved(tools.byIndex, t) && tools.byIndex == Fed(tools.byIndex, t);
      hide Fragments, Resolved, Fed;
      if choice.index != 0 { return; }
      if choice.role != "" { role := choice.role; }
      if choice.content.Some? { content := content + choice.content.value; }
      if choice.reasoning.Some? { reasoning := reasoning + choice.reasoning.value; }
      if choice.toolCalls != [] { t := tools.Add(choice.toolCalls); }
      if choice.finish.Some? && finishReason.None? { finishReason := choice.finish; }
    }

    /** Message: an assistant message unless another role was named, with a null content
        exactly if it has tool calls and no text. */
    method Message() returns (m: Assembled)
      ensures m.role == FirstText(role, "assistant") && m.reasoning == reasoning
      ensures exists ix :: Finalized(tools.byIndex, m.calls, ix)
      ensures m.text == if content == "" && m.calls != [] then None else Some(content)
    {
      var calls := tools.Finalize();
      m := Assembled(if role == "" then "assistant" else role,
                     if content == "" && |calls| > 0 then None else Some(content), reasoning, calls);
    }
  }
}
