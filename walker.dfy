/**
 * The history walker: `recursive_loc` and `loc_counter_one_repo` in
 * today.py. The remote commit history of one repository is given as the
 * sequence of replies the query endpoint sends, one per page request.
 */
module Walker {
  import opened Wrappers

  /** One history edge: the author's user id (None when the author or its user is null) and its line counts. */
  datatype Commit = Commit(authorId: Option<string>, additions: int, deletions: int)

  /** One page of `history(first: 100, after: cursor)`. */
  datatype Page = Page(commits: seq<Commit>, hasNextPage: bool)

  /**
   * One reply to a history request: its HTTP status and, for a 200, the
   * history page of the default branch (None when the repository or its
   * `defaultBranchRef` is null).
   */
  datatype Reply = Reply(status: int, history: Option<Page>)

  /** The running totals of one walk. */
  datatype Totals = Totals(added: int, deleted: int, mine: int)
  {
    function Plus(other: Totals): Totals
    {
      Totals(added + other.added, deleted + other.deleted, mine + other.mine)
    }
  }

  function Zero(): Totals
  {
    Totals(0, 0, 0)
  }

  /** What a walk ends with: the totals, or the status of a reply other than 200. */
  datatype WalkResult = Done(totals: Totals) | Failed(status: int)

  /** A reply after which no further page is requested. */
  predicate Stops(r: Reply)
  {
    r.status != 200 || r.history.None? || r.history.value.commits == [] || !r.history.value.hasNextPage
  }

  /** The replies contain one that ends the walk: the history is finite. */
  predicate Ends(replies: seq<Reply>)
  {
    |replies| > 0 && (Stops(replies[0]) || Ends(replies[1..]))
  }

  /** The replies the endpoint gives to the successive page requests of one walk. */
  type Script = s: seq<Reply> | Ends(s) witness [Reply(404, None)]

  /** The edge condition of `loc_counter_one_repo`: author, its user and the user id equal OWNER_ID. */
  predicate IsOwn(c: Commit, ownerId: string)
  {
    c.authorId == Some(ownerId)
  }

  /** What the loop over one page's edges adds to the totals. */
  function Tally(cs: seq<Commit>, ownerId: string): Totals
  {
    if cs == [] then Zero()
    else
      var t := Tally(cs[..|cs| - 1], ownerId);
      var c := cs[|cs| - 1];
      if IsOwn(c, ownerId) then Totals(t.added + c.additions, t.deleted + c.deletions, t.mine + 1) else t
  }

  /**
   * The walk, page by page, as `recursive_loc` calls `loc_counter_one_repo`
   * and that calls `recursive_loc` again with the next cursor.
   */
  function Walk(replies: seq<Reply>, ownerId: string, acc: Totals): (r: WalkResult)
    requires Ends(replies)
    ensures r.Failed? ==> r.status != 200
    decreases |replies|
  {
    var reply := replies[0];
    if reply.status != 200 then Failed(reply.status)
    else if reply.history.None? then Done(Zero())
    else
      var page := reply.history.value;
      var acc' := acc.Plus(Tally(page.commits, ownerId));
      if page.commits == [] || !page.hasNextPage then Done(acc')
      else Walk(replies[1..], ownerId, acc')
  }

  // ------------------------------------------------ reference definitions

  /** The commits the tracked account authored, in order. */
  function Authored(cs: seq<Commit>, ownerId: string): seq<Commit>
  {
    if cs == [] then []
    else Authored(cs[..|cs| - 1], ownerId) + (if IsOwn(cs[|cs| - 1], ownerId) then [cs[|cs| - 1]] else [])
  }

  function SumAdditions(cs: seq<Commit>): int
  {
    if cs == [] then 0 else SumAdditions(cs[..|cs| - 1]) + cs[|cs| - 1].additions
  }

  function SumDeletions(cs: seq<Commit>): int
  {
    if cs == [] then 0 else SumDeletions(cs[..|cs| - 1]) + cs[|cs| - 1].deletions
  }

  /** Every reply up to the one that ends the walk is a 200 carrying a history page. */
  predicate ReachesLastPage(replies: seq<Reply>)
  {
    && |replies| > 0
    && replies[0].status == 200 && replies[0].history.Some?
    && (Stops(replies[0]) || ReachesLastPage(replies[1..]))
  }

  /** The commits of every page such a walk reads. */
  function Visited(replies: seq<Reply>): seq<Commit>
    requires ReachesLastPage(replies)
  {
    replies[0].history.value.commits + (if Stops(replies[0]) then [] else Visited(replies[1..]))
  }

  // ------------------------------------------------------------- lemmas

  /** The authored commits are exactly the commits whose author id is the tracked account's. */
  lemma {:induction false} AuthoredMembers(cs: seq<Commit>, ownerId: string)
    ensures forall c :: c in Authored(cs, ownerId) <==> c in cs && IsOwn(c, ownerId)
  {
    if cs != [] {
      var init := cs[..|cs| - 1];
      AuthoredMembers(init, ownerId);
      assert cs == init + [cs[|cs| - 1]];
    }
  }

  /** The page tally counts the authored commits and sums their additions and deletions. */
  lemma {:induction false} TallyCountsAuthored(cs: seq<Commit>, ownerId: string)
    ensures Tally(cs, ownerId) == Totals(SumAdditions(Authored(cs, ownerId)), SumDeletions(Authored(cs, ownerId)), |Authored(cs, ownerId)|)
  {
    if cs != [] {
      var init := cs[..|cs| - 1];
      var c := cs[|cs| - 1];
      TallyCountsAuthored(init, ownerId);
      var a := Authored(init, ownerId);
      if IsOwn(c, ownerId) {
        assert Authored(cs, ownerId) == a + [c];
        assert (a + [c])[..|a|] == a;
      } else {
        assert Authored(cs, ownerId) == a;
      }
    }
  }

  /** Tallying two runs of edges one after the other is tallying their concatenation. */
  lemma {:induction false} TallyAppend(a: seq<Commit>, b: seq<Commit>, ownerId: string)
    ensures Tally(a + b, ownerId) == Tally(a, ownerId).Plus(Tally(b, ownerId))
  {
    if b == [] {
      assert a + b == a;
    } else {
      var init := b[..|b| - 1];
      TallyAppend(a, init, ownerId);
      assert (a + b)[..|a + b| - 1] == a + init;
    }
  }

  /**
   * A walk that ends on a page adds to its starting totals the tally of
   * every commit it read; started from zero, as `cache_builder` does, it
   * counts the account's commits on those pages and sums their line counts.
   */
  lemma {:induction false} WalkTalliesVisited(replies: seq<Reply>, ownerId: string, acc: Totals)
    requires ReachesLastPage(replies)
    ensures Ends(replies)
    ensures Walk(replies, ownerId, acc) == Done(acc.Plus(Tally(Visited(replies), ownerId)))
  {
    var page := replies[0].history.value;
    if !Stops(replies[0]) {
      var acc' := acc.Plus(Tally(page.commits, ownerId));
      WalkTalliesVisited(replies[1..], ownerId, acc');
      TallyAppend(page.commits, Visited(replies[1..]), ownerId);
    } else {
      assert Visited(replies) == page.commits + [];
      assert page.commits + [] == page.commits;
    }
  }

  /** From zero totals, the walk's count is the number of the account's commits read. */
  lemma WalkCountsOwnCommits(replies: seq<Reply>, ownerId: string)
    requires ReachesLastPage(replies)
    ensures Ends(replies)
    ensures var own := Authored(Visited(replies), ownerId);
      Walk(replies, ownerId, Zero()) == Done(Totals(SumAdditions(own), SumDeletions(own), |own|))
  {
    WalkTalliesVisited(replies, ownerId, Zero());
    TallyCountsAuthored(Visited(replies), ownerId);
  }

  /** A walk that fails does so with the status of one of the replies, and that status is not 200. */
  lemma {:induction false} WalkFailsOnlyOnError(replies: seq<Reply>, ownerId: string, acc: Totals)
    requires Ends(replies)
    ensures Walk(replies, ownerId, acc).Failed? ==>
      exists i :: 0 <= i < |replies| && replies[i].status != 200 && Walk(replies, ownerId, acc).status == replies[i].status
  {
    var reply := replies[0];
    if reply.status == 200 && reply.history.Some? && !Stops(reply) {
      var acc' := acc.Plus(Tally(reply.history.value.commits, ownerId));
      WalkFailsOnlyOnError(replies[1..], ownerId, acc');
      if Walk(replies, ownerId, acc).Failed? {
        var i :| 0 <= i < |replies[1..]| && replies[1..][i].status != 200 && Walk(replies[1..], ownerId, acc').status == replies[1..][i].status;
        assert replies[i + 1] == replies[1..][i];
      }
    }
  }

  /**
   * A 200 reply without a repository or default branch ends the walk with
   * zero totals, even after pages already counted: what they added is dropped.
   */
  lemma {:induction false} EmptyReplyZeroesWalk(replies: seq<Reply>, ownerId: string, acc: Totals, i: nat)
    requires Ends(replies)
    requires i < |replies|
    requires forall j :: 0 <= j < i ==> !Stops(replies[j])
    requires replies[i].status == 200 && replies[i].history.None?
    ensures Walk(replies, ownerId, acc) == Done(Zero())
  {
    if i > 0 {
      var acc' := acc.Plus(Tally(replies[0].history.value.commits, ownerId));
      assert forall j :: 0 <= j < i - 1 ==> replies[1..][j] == replies[j + 1];
      EmptyReplyZeroesWalk(replies[1..], ownerId, acc', i - 1);
    }
  }

  /** A non-200 reply the walk reaches makes the walk fail with that reply's status. */
  lemma {:induction false} WalkFailsOnReachedError(replies: seq<Reply>, ownerId: string, acc: Totals, i: nat)
    requires Ends(replies)
    requires i < |replies|
    requires forall j :: 0 <= j < i ==> !Stops(replies[j])
    requires replies[i].status != 200
    ensures Walk(replies, ownerId, acc) == Failed(replies[i].status)
  {
    if i > 0 {
      var acc' := acc.Plus(Tally(replies[0].history.value.commits, ownerId));
      assert forall j :: 0 <= j < i - 1 ==> replies[1..][j] == replies[j + 1];
      WalkFailsOnReachedError(replies[1..], ownerId, acc', i - 1);
    }
  }

  // ------------------------------------------------------------- methods

  /** The loop of `loc_counter_one_repo` over one page's edges. */
  method CountPage(commits: seq<Commit>, ownerId: string, acc: Totals) returns (t: Totals)
    ensures t == acc.Plus(Tally(commits, ownerId))
  {
    t := acc;
    var i := 0;
    while i < |commits|
      invariant i <= |commits|
      invariant t == acc.Plus(Tally(commits[..i], ownerId))
    {
      var c := commits[i];
      assert commits[..i + 1][..i] == commits[..i];
      if IsOwn(c, ownerId) {
        t := Totals(t.added + c.additions, t.deleted + c.deletions, t.mine + 1);
      }
      i := i + 1;
    }
    assert commits[..i] == commits;
  }

  /**
   * One full re-walk from zero totals: request page after page until a
   * reply other than 200, a null repository or branch, an empty page or a
   * page without a next one.
   */
  method WalkHistory(replies: Script, ownerId: string) returns (w: WalkResult)
    ensures w == Walk(replies, ownerId, Zero())
  {
    var totals := Zero();
    var k := 0;
    var done := false;
    w := Done(totals);
    while !done
      invariant !done ==> k < |replies| && Ends(replies[k..]) && Walk(replies, ownerId, Zero()) == Walk(replies[k..], ownerId, totals)
      invariant done ==> w == Walk(replies, ownerId, Zero())
      decreases if done then 0 else 1, |replies| - k
    {
      var reply := replies[k];
      if reply.status != 200 {
        w := Failed(reply.status);
        done := true;
      } else if reply.history.None? {
        w := Done(Zero());
        done := true;
      } else {
        var page := reply.history.value;
        totals := CountPage(page.commits, ownerId, totals);
        if page.commits == [] || !page.hasNextPage {
          w := Done(totals);
          done := true;
        } else {
          assert replies[k..][1..] == replies[k + 1..];
          k := k + 1;
        }
      }
    }
  }
}
