/** The Go string searches the edit tool is built on (strings.Index, Count and
    Replace), against one account of what they mean: cutting a text at every
    occurrence of a pattern. */
module Strings {
  import opened Wrappers
  import opened Text

  function Find(text: string, pat: string): (r: Option<nat>)
    ensures r.Some? ==> r.value + |pat| <= |text| && text[r.value..r.value + |pat|] == pat
  {
    if pat <= text then Some(0)
    else if text == [] then None
    else
      match Find(text[1..], pat)
      case None => None
      case Some(i) => assert text[1..][i..i + |pat|] == text[i + 1..i + 1 + |pat|]; Some(i + 1)
  }

  /** strings.Count: occurrences that do not overlap, from the left. */
  function Count(text: string, pat: string): nat
    requires pat != ""
    decreases |text|
  {
    match Find(text, pat)
    case None => 0
    case Some(i) => 1 + Count(text[i + |pat|..], pat)
  }

  /** strings.Replace; a negative limit replaces every occurrence. */
  function Replace(text: string, pat: string, with: string, limit: int): string
    requires pat != ""
    decreases |text|
  {
    if limit == 0 then text
    else
      match Find(text, pat)
      case None => text
      case Some(i) => text[..i] + with + Replace(text[i + |pat|..], pat, with, limit - 1)
  }

  /** strings.Split. */
  function Split(text: string, pat: string): (pieces: seq<string>)
    requires pat != ""
    ensures pieces != []
    decreases |text|
  {
    match Find(text, pat)
    case None => [text]
    case Some(i) => [text[..i]] + Split(text[i + |pat|..], pat)
  }

  ghost predicate OccursAt(text: string, pat: string, i: int) {
    0 <= i && i + |pat| <= |text| && text[i..i + |pat|] == pat
  }

  /** Find is the leftmost occurrence, and None only when there is none. */
  lemma {:induction false} FindLeftmost(text: string, pat: string)
    ensures Find(text, pat) == None ==> forall i :: !OccursAt(text, pat, i)
    ensures Find(text, pat).Some? ==>
              OccursAt(text, pat, Find(text, pat).value)
              && forall i | i < Find(text, pat).value :: !OccursAt(text, pat, i)
  {
    if !(pat <= text) && text != [] {
      FindLeftmost(text[1..], pat);
      forall i | OccursAt(text, pat, i) ensures i > 0 && OccursAt(text[1..], pat, i - 1) {
        assert i > 0;
        assert text[1..][i - 1..i - 1 + |pat|] == text[i..i + |pat|];
      }
    } else if text == [] {
      assert forall i :: OccursAt(text, pat, i) ==> i == 0 && pat == [];
    }
  }

  lemma JoinCons(head: string, tail: seq<string>, sep: string)
    requires tail != []
    ensures Join([head] + tail, sep) == head + sep + Join(tail, sep)
  {
    assert ([head] + tail)[1..] == tail;
  }

  lemma {:induction false} CutJoinsBack(text: string, pat: string)
    requires pat != ""
    ensures Join(Split(text, pat), pat) == text
    ensures |Split(text, pat)| == Count(text, pat) + 1
    decreases |text|
  {
    match Find(text, pat)
    case None =>
    case Some(i) =>
      var rest := text[i + |pat|..];
      CutJoinsBack(rest, pat);
      JoinCons(text[..i], Split(rest, pat), pat);
      assert text == text[..i] + text[i..i + |pat|] + rest;
  }

  lemma {:induction false} CutJoinsReplaced(text: string, pat: string, with: string, limit: int)
    requires pat != "" && limit < 0
    ensures Join(Split(text, pat), with) == Replace(text, pat, with, limit)
    decreases |text|
  {
    hide Find;
    match Find(text, pat)
    case None =>
    case Some(i) =>
      var rest := text[i + |pat|..];
      CutJoinsReplaced(rest, pat, with, limit - 1);
      JoinCons(text[..i], Split(rest, pat), with);
  }

  lemma FrontIsClean(text: string, pat: string, i: nat, j: int)
    requires i <= |text| && pat != "" && (0 <= j < i ==> !OccursAt(text, pat, j))
    ensures !OccursAt(text[..i], pat, j)
  {
    assert 0 <= j && j + |pat| <= i ==> text[..i][j..j + |pat|] == text[j..j + |pat|];
  }

  lemma SplitUnfold(text: string, pat: string)
    requires pat != ""
    ensures Split(text, pat) == match Find(text, pat)
                                case None => [text]
                                case Some(i) => [text[..i]] + Split(text[i + |pat|..], pat)
  {
    hide Find;
  }

  /** No piece of the cut still contains the pattern. */
  lemma {:induction false} PiecesAreClean(text: string, pat: string, k: nat, j: int)
    requires pat != "" && k < |Split(text, pat)|
    ensures !OccursAt(Split(text, pat)[k], pat, j)
    decreases |text|
  {
    hide *;
    FindLeftmost(text, pat);
    SplitUnfold(text, pat);
    match Find(text, pat)
    case None =>
    case Some(i) =>
      if k > 0 {
        PiecesAreClean(text[i + |pat|..], pat, k - 1, j);
      } else {
        FrontIsClean(text, pat, i, j);
      }
  }

  lemma ReplaceOnce(text: string, pat: string, with: string)
    requires pat != "" && Count(text, pat) == 1
    ensures Replace(text, pat, with, 1) == Join(Split(text, pat), with)
  {
    var i := Find(text, pat).value;
    var rest := text[i + |pat|..];
    assert Count(rest, pat) == 0;
    JoinCons(text[..i], [rest], with);
  }

  /** What a replacement changes: the text is cut at occurrences of the pattern into
      pieces that do not contain it, and only what stood between the pieces differs. */
  ghost predicate OnlyMatchesChanged(text: string, pat: string, with: string, updated: string, matches: nat) {
    exists pieces: seq<string> ::
      && |pieces| == matches + 1
      && text == Join(pieces, pat)
      && updated == Join(pieces, with)
      && forall k, j | 0 <= k < |pieces| :: !OccursAt(pieces[k], pat, j)
  }

  lemma ReplaceChangesOnlyMatches(text: string, pat: string, with: string, all: bool)
    requires pat != "" && (all || Count(text, pat) == 1)
    ensures OnlyMatchesChanged(text, pat, with, Replace(text, pat, with, if all then -1 else 1), Count(text, pat))
  {
    var pieces := Split(text, pat);
    CutJoinsBack(text, pat);
    if all { CutJoinsReplaced(text, pat, with, -1); } else { ReplaceOnce(text, pat, with); }
    forall k, j | 0 <= k < |pieces| ensures !OccursAt(pieces[k], pat, j) {
      PiecesAreClean(text, pat, k, j);
    }
  }
}
