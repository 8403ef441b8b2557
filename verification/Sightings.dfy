/** What a list of replies shows of a path, and how the ledger and the record of what was
    shown follow it. */
module Sightings {
  import opened Wrappers
  import opened Messages
  import opened Ledgers
  import opened FileTools
  import opened AgentRun

  /** A live claim: an existing file the ledger would let the model change. */
  ghost predicate Claims(es: Entries, p: string) {
    p in es && !es[p].stale && es[p].present
  }

  /** The bytes a list of replies last reported for a path. */
  function LastSeen(replies: seq<Reply>, p: string): Option<string> {
    if replies == [] then None
    else
      var later := LastSeen(replies[1..], p);
      if later.Some? then later
      else if Observed(replies[0]).Some? && Observed(replies[0]).value.0 == p then Some(Observed(replies[0]).value.1)
      else None
  }

  /** Replies that report the same bytes for the same paths. */
  ghost predicate ShowSame(a: seq<Reply>, b: seq<Reply>) {
    |a| == |b| && forall k | 0 <= k < |a| :: Observed(a[k]) == Observed(b[k]) && (Observed(a[k]).Some? ==> a[k] == b[k])
  }

  lemma {:induction false} ShowSameLastSeen(a: seq<Reply>, b: seq<Reply>, p: string)
    requires ShowSame(a, b)
    ensures LastSeen(a, p) == LastSeen(b, p)
    decreases a
  {
    if a != [] { ShowSameLastSeen(a[1..], b[1..], p); }
  }

  lemma {:induction false} ShowSameSeeAll(host: Host, seen: Witnesses, calls: seq<ToolCall>, a: seq<Reply>,
                                          b: seq<Reply>)
    requires ShowSame(a, b) && |calls| == |a|
    ensures SeeAll(host, seen, calls, a) == SeeAll(host, seen, calls, b)
    decreases calls
  {
    if calls != [] {
      assert See(host, seen, calls[0], a[0]) == See(host, seen, calls[0], b[0]);
      ShowSameSeeAll(host, See(host, seen, calls[0], a[0]), calls[1..], a[1..], b[1..]);
    }
  }

  /** Cancellation changes errors, and errors show no bytes. */
  lemma RunShowsReplied(host: Host, s: State, jobs: seq<Job>)
    ensures ShowSame(Replied(host, s, jobs), RunInOrder(host, s, jobs).replies)
  {
    LedgerFollowsReplies(host, s, jobs);
  }

  /** Where a path's entry stands after some replies: untouched by them, left by the
      last reply that showed it, or an absence. */
  ghost predicate Traced(host: Host, es: Entries, seen: Witnesses, es': Entries, seen': Witnesses,
                         calls: seq<ToolCall>, replies: seq<Reply>, turn: int, p: string)
    requires |calls| == |replies|
  {
    || (LastSeen(replies, p) == None && (p in es' <==> p in es) && (p in es ==> es'[p] == es[p])
        && (p in seen ==> p in seen' && seen'[p] == seen[p]))
    || (p in es' && !es'[p].present)
    || exists k | 0 <= k < |replies| :: Left(host, es', seen', calls, replies, turn, p, k)
  }

  ghost predicate Left(host: Host, es': Entries, seen': Witnesses, calls: seq<ToolCall>, replies: seq<Reply>,
                       turn: int, p: string, k: int)
    requires |calls| == |replies| && 0 <= k < |replies|
  {
    && Observed(replies[k]).Some? && Observed(replies[k]).value.0 == p
    && var b := Observed(replies[k]).value.1;
       && LastSeen(replies, p) == Some(b)
       && p in es' && es'[p] == Seen(host.sha, p, b, turn)
       && p in seen' && seen'[p] == Witness(calls[k].id, b, ResultText(host, replies[k]))
  }

  lemma {:induction false} TurnIsTraced(host: Host, es: Entries, seen: Witnesses, calls: seq<ToolCall>,
                                        replies: seq<Reply>, turn: int, p: string)
    requires |calls| == |replies|
    ensures Traced(host, es, seen, NotedAll(host.sha, es, replies, turn), SeeAll(host, seen, calls, replies),
                   calls, replies, turn, p)
    decreases replies
  {
    if replies != [] {
      var r, rest := replies[0], replies[1..];
      var es1, seen1 := Noted(host.sha, es, r, turn), See(host, seen, calls[0], r);
      TurnIsTraced(host, es1, seen1, calls[1..], rest, turn, p);
      var es', seen' := NotedAll(host.sha, es, replies, turn), SeeAll(host, seen, calls, replies);
      if k :| 0 <= k < |rest| && Left(host, es', seen', calls[1..], rest, turn, p, k) {
        assert replies[k + 1] == rest[k] && calls[k + 1] == calls[1..][k];
        assert Left(host, es', seen', calls, replies, turn, p, k + 1);
      } else if p in es' && !es'[p].present {
      } else if Observed(r).Some? && Observed(r).value.0 == p {
        FirstReplyLasts(host, es, seen, calls, replies, turn, p);
      }
    }
  }

  lemma FirstReplyLasts(host: Host, es: Entries, seen: Witnesses, calls: seq<ToolCall>, replies: seq<Reply>, turn: int,
                        p: string)
    requires |calls| == |replies| && replies != []
    requires Observed(replies[0]).Some? && Observed(replies[0]).value.0 == p
    requires var es1, seen1 := Noted(host.sha, es, replies[0], turn), See(host, seen, calls[0], replies[0]);
             var es', seen' := NotedAll(host.sha, es, replies, turn), SeeAll(host, seen, calls, replies);
             && LastSeen(replies[1..], p) == None && p in es' && es'[p] == es1[p]
             && p in seen' && seen'[p] == seen1[p]
    ensures Left(host, NotedAll(host.sha, es, replies, turn), SeeAll(host, seen, calls, replies),
                 calls, replies, turn, p, 0)
  {
  }

  lemma {:induction false} NotedAllSnoc(sha: Hash, es: Entries, replies: seq<Reply>, r: Reply, turn: int)
    ensures NotedAll(sha, es, replies + [r], turn) == Noted(sha, NotedAll(sha, es, replies, turn), r, turn)
    decreases replies
  {
    if replies == [] {
      assert [] + [r] == [r];
      assert NotedAll(sha, Noted(sha, es, r, turn), [], turn) == Noted(sha, es, r, turn);
    } else {
      assert (replies + [r])[1..] == replies[1..] + [r];
      NotedAllSnoc(sha, Noted(sha, es, replies[0], turn), replies[1..], r, turn);
    }
  }

  /** What the record says of a path is what was shown of it last. */
  lemma {:induction false} SightsAreLatest(host: Host, seen: Witnesses, calls: seq<ToolCall>, replies: seq<Reply>,
                                           p: string)
    requires |calls| == |replies|
    ensures var seen' := SeeAll(host, seen, calls, replies);
            match LastSeen(replies, p)
            case Some(b) => p in seen' && seen'[p].bytes == b
            case None => (p in seen' <==> p in seen) && (p in seen ==> seen'[p] == seen[p])
    decreases calls
  {
    if calls != [] {
      SightsAreLatest(host, See(host, seen, calls[0], replies[0]), calls[1..], replies[1..], p);
    }
  }
}
