/** Text as the server handles it: a sequence of Unicode scalar values whose
    size in bytes is the size of its UTF-8 encoding.  Everything here is a
    specification of a Go library function, with the laws its callers rely on. */
module Text {

  /** unicode.IsSpace. */
  predicate IsSpace(c: char) {
    var n := c as int;
    || 9 <= n <= 13 || n == 0x20 || n == 0x85 || n == 0xA0 || n == 0x1680
    || 0x2000 <= n <= 0x200A || n == 0x2028 || n == 0x2029 || n == 0x202F
    || n == 0x205F || n == 0x3000
  }

  predicate AllSpace(s: string) {
    forall i | 0 <= i < |s| :: IsSpace(s[i])
  }

  function TrimLeft(s: string): string {
    if s != [] && IsSpace(s[0]) then TrimLeft(s[1..]) else s
  }

  function TrimRight(s: string): string {
    if s != [] && IsSpace(s[|s| - 1]) then TrimRight(s[..|s| - 1]) else s
  }

  /** strings.TrimSpace and bytes.TrimSpace. */
  function Trim(s: string): string {
    TrimRight(TrimLeft(s))
  }

  /** The number of bytes UTF-8 spends on one scalar value. */
  function RuneBytes(c: char): (n: nat)
    ensures 1 <= n <= 4
  {
    var u := c as int;
    if u < 0x80 then 1 else if u < 0x800 then 2 else if u < 0x10000 then 3 else 4
  }

  /** Go's len of a string. */
  function ByteLen(s: string): nat {
    if s == [] then 0 else RuneBytes(s[0]) + ByteLen(s[1..])
  }

  /** strings.Join. */
  function Join(parts: seq<string>, sep: string): string {
    if parts == [] then []
    else if |parts| == 1 then parts[0]
    else parts[0] + sep + Join(parts[1..], sep)
  }

  /** Concatenation of a list of pieces, in order. */
  function Concat(parts: seq<string>): string {
    if parts == [] then [] else parts[0] + Concat(parts[1..])
  }

  /** strconv.Itoa on a non-negative number. */
  function Itoa(n: nat): string {
    if n < 10 then [Digit(n)] else Itoa(n / 10) + [Digit(n % 10)]
  }

  function Digit(d: nat): char
    requires d < 10
  {
    "0123456789"[d]
  }

  lemma {:induction false} ByteLenAppend(a: string, b: string)
    ensures ByteLen(a + b) == ByteLen(a) + ByteLen(b)
  {
    if a == [] {
      assert a + b == b;
    } else {
      assert (a + b)[1..] == a[1..] + b;
      ByteLenAppend(a[1..], b);
    }
  }

  lemma {:induction false} ByteLenBounds(s: string)
    ensures |s| <= ByteLen(s) <= 4 * |s|
  {
    if s != [] {
      ByteLenBounds(s[1..]);
    }
  }

  lemma {:induction false} ConcatAppend(a: seq<string>, b: seq<string>)
    ensures Concat(a + b) == Concat(a) + Concat(b)
  {
    if a == [] {
      assert a + b == b;
    } else {
      assert (a + b)[1..] == a[1..] + b;
      ConcatAppend(a[1..], b);
    }
  }

  /** Numbers below 10^19, which covers every length Go can represent, print in
      at most nineteen digits. */
  lemma {:induction false} ItoaShort(n: nat, digits: nat)
    requires digits >= 1
    requires n < Pow10(digits)
    ensures ByteLen(Itoa(n)) <= digits
  {
    if n >= 10 {
      assert digits > 1;
      ItoaShort(n / 10, digits - 1);
      ByteLenAppend(Itoa(n / 10), [Digit(n % 10)]);
    }
  }

  function Pow10(k: nat): nat {
    if k == 0 then 1 else 10 * Pow10(k - 1)
  }

  /** TrimLeft drops a run of whitespace and stops at the first other scalar. */
  lemma {:induction false} TrimLeftSplits(s: string) returns (k: nat)
    ensures k <= |s| && AllSpace(s[..k]) && TrimLeft(s) == s[k..]
    ensures k < |s| ==> !IsSpace(s[k])
  {
    k := 0;
    if s != [] && IsSpace(s[0]) {
      var j := TrimLeftSplits(s[1..]);
      k := j + 1;
      assert s[..k] == [s[0]] + s[1..][..j];
      assert s[1..][j..] == s[k..];
    }
  }

  lemma {:induction false} TrimLeftDropsPrefix(ws: string, s: string)
    requires AllSpace(ws)
    ensures TrimLeft(ws + s) == TrimLeft(s)
  {
    if ws == [] {
      assert ws + s == s;
    } else {
      assert (ws + s)[1..] == ws[1..] + s;
      TrimLeftDropsPrefix(ws[1..], s);
    }
  }

  lemma {:induction false} TrimRightDropsSuffix(s: string, ws: string)
    requires AllSpace(ws)
    ensures TrimRight(s + ws) == TrimRight(s)
  {
    if ws == [] {
      assert s + ws == s;
    } else {
      var init := ws[..|ws| - 1];
      assert (s + ws)[..|s + ws| - 1] == s + init;
      TrimRightDropsSuffix(s, init);
    }
  }

  /** Whitespace on either side never changes what Trim returns. */
  lemma {:induction false} TrimIgnoresSurroundings(before: string, s: string, after: string)
    requires AllSpace(before) && AllSpace(after)
    ensures Trim(before + s + after) == Trim(s)
  {
    assert before + s + after == before + (s + after);
    TrimLeftDropsPrefix(before, s + after);
    TrimLeftAppend(s, after);
    if AllSpace(s) {
      TrimLeftBlank(s);
      TrimLeftBlank(after);
    } else {
      TrimRightDropsSuffix(TrimLeft(s), after);
    }
  }

  lemma {:induction false} TrimLeftBlank(s: string)
    requires AllSpace(s)
    ensures TrimLeft(s) == []
  {
    assert s + [] == s;
    TrimLeftDropsPrefix(s, []);
  }

  lemma {:induction false} TrimLeftAppend(s: string, t: string)
    ensures AllSpace(s) ==> TrimLeft(s + t) == TrimLeft(t)
    ensures !AllSpace(s) ==> TrimLeft(s + t) == TrimLeft(s) + t
  {
    if AllSpace(s) {
      TrimLeftDropsPrefix(s, t);
    } else if IsSpace(s[0]) {
      assert (s + t)[1..] == s[1..] + t;
      TrimLeftAppend(s[1..], t);
    }
  }

  /** Trim leaves nothing exactly when there was only whitespace. */
  lemma {:induction false} TrimEmpty(s: string)
    ensures Trim(s) == [] <==> AllSpace(s)
  {
    var k := TrimLeftSplits(s);
    if k == |s| {
      assert s[..k] == s;
      TrimLeftBlank(s);
    } else {
      TrimRightKeepsHead(s[k..]);
    }
  }

  lemma {:induction false} TrimRightKeepsHead(s: string)
    requires s != [] && !IsSpace(s[0])
    ensures TrimRight(s) != [] && TrimRight(s)[0] == s[0]
  {
    if IsSpace(s[|s| - 1]) {
      TrimRightKeepsHead(s[..|s| - 1]);
    }
  }

  lemma {:induction false} TrimRightAppend(s: string, t: string)
    requires !AllSpace(t)
    ensures TrimRight(s + t) == s + TrimRight(t)
  {
    if IsSpace(t[|t| - 1]) {
      var init := t[..|t| - 1];
      assert (s + t)[..|s + t| - 1] == s + init;
      assert t == init + [t[|t| - 1]];
      TrimRightAppend(s, init);
    }
  }

  /** Between two texts that are not blank nothing is trimmed. */
  lemma TrimOfTwo(a: string, sep: string, b: string)
    requires !AllSpace(a) && !AllSpace(b)
    ensures Trim(a + sep + b) == TrimLeft(a) + sep + TrimRight(b)
    ensures |TrimLeft(a)| >= |Trim(a)| && |TrimRight(b)| >= |Trim(b)|
  {
    assert a + sep + b == a + (sep + b);
    TrimLeftAppend(a, sep + b);
    assert TrimLeft(a) + (sep + b) == TrimLeft(a) + sep + b;
    TrimRightAppend(TrimLeft(a) + sep, b);
    hide TrimLeft, TrimRight, AllSpace;
    TrimRightShortens(TrimLeft(a));
    TrimIsNoLonger(b);
  }

  lemma TrimIsNoLonger(b: string)
    requires !AllSpace(b)
    ensures |TrimRight(b)| >= |Trim(b)|
  {
    var k := TrimLeftSplits(b);
    assert b == b[..k] + b[k..];
    assert k < |b| by { assert b[..|b|] == b; }
    assert b[k..][0] == b[k];
    TrimRightAppend(b[..k], b[k..]);
  }

  lemma {:induction false} TrimRightShortens(s: string)
    ensures |TrimRight(s)| <= |s|
  {
    if s != [] && IsSpace(s[|s| - 1]) { TrimRightShortens(s[..|s| - 1]); }
  }
}
