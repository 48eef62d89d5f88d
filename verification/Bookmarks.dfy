/** Paging through saved posts: a window over the ordered list of bookmarked post ids, newest bookmark first. */
module Bookmarks {
  import opened Wrappers
  import opened Sequences

  datatype Window = Window(ids: seq<Id>, nextCursor: Option<Id>)

  predicate Distinct(ids: seq<Id>) { forall i, j :: 0 <= i < j < |ids| ==> ids[i] != ids[j] }

  function IndexOf(ids: seq<Id>, id: Id): (i: int)
    ensures -1 <= i < |ids|
    ensures i >= 0 ==> ids[i] == id
    ensures i == -1 <==> id !in ids
  {
    if ids == [] then -1
    else if ids[0] == id then 0
    else
      var i := IndexOf(ids[1..], id);
      if i < 0 then -1 else i + 1
  }

  /** Where a page starts; a cursor that is no longer bookmarked starts over. */
  function Start(ids: seq<Id>, cursor: Option<Id>): (start: nat)
    ensures start <= |ids|
  {
    if cursor.None? then 0 else
      var i := IndexOf(ids, cursor.value);
      if i >= 0 then i + 1 else 0
  }

  /** The ids of one page, before invisible posts are dropped. */
  function PageIds(ids: seq<Id>, cursor: Option<Id>, take: nat): Window
    requires take >= 1
  {
    if ids == [] then Window([], None)
    else
      var start := Start(ids, cursor);
      var window := if start + take <= |ids| then ids[start..start + take] else ids[start..];
      Window(window, if start + take < |ids| then Some(window[|window| - 1]) else None)
  }

  /** The posts of a page: those that can still be found, in bookmark order. */
  function Visible(ids: seq<Id>, visible: set<Id>): seq<Id>
  {
    if ids == [] then []
    else if ids[0] in visible then [ids[0]] + Visible(ids[1..], visible)
    else Visible(ids[1..], visible)
  }

  function Remaining(ids: seq<Id>, cursor: Option<Id>): seq<Id> { ids[Start(ids, cursor)..] }

  /** New bookmarks have been put in front. */
  predicate GrownInFront(before: seq<Id>, after: seq<Id>)
  {
    Distinct(after) && |before| <= |after| && after[|after| - |before|..] == before
  }

  predicate Growing(lists: seq<seq<Id>>)
  {
    && (forall i :: 0 <= i < |lists| ==> Distinct(lists[i]))
    && (forall i :: 0 < i < |lists| ==> GrownInFront(lists[i - 1], lists[i]))
  }

  /** The posts that successive fetches return, while there is a next cursor and a further fetch. */
  function Walk(lists: seq<seq<Id>>, cursor: Option<Id>, take: nat, visible: set<Id>): seq<Id>
    requires take >= 1
  {
    if lists == [] then [] else
      var page := PageIds(lists[0], cursor, take);
      if page.nextCursor.None? then Visible(page.ids, visible)
      else Visible(page.ids, visible) + Walk(lists[1..], page.nextCursor, take, visible)
  }

  /** The walk has reached a page without a next cursor. */
  predicate Completes(lists: seq<seq<Id>>, cursor: Option<Id>, take: nat)
    requires take >= 1
  {
    lists != [] &&
    var page := PageIds(lists[0], cursor, take);
    page.nextCursor.None? || Completes(lists[1..], page.nextCursor, take)
  }

  /** How many fetches a walk over n remaining bookmarks takes. */
  function Fetches(n: nat, take: nat): nat
    requires take >= 1
  {
    if n <= take then 1 else 1 + Fetches(n - take, take)
  }

  lemma {:induction false} IndexOfUnique(ids: seq<Id>, i: nat)
    requires Distinct(ids) && i < |ids|
    ensures IndexOf(ids, ids[i]) == i
  {
    var k := IndexOf(ids, ids[i]);
    assert ids[i] in ids;
  }

  lemma {:induction false} VisibleOfConcat(xs: seq<Id>, ys: seq<Id>, visible: set<Id>)
    ensures Visible(xs + ys, visible) == Visible(xs, visible) + Visible(ys, visible)
    decreases |xs|
  {
    if xs == [] {
      assert xs + ys == ys;
    } else {
      assert (xs + ys)[1..] == xs[1..] + ys;
      VisibleOfConcat(xs[1..], ys, visible);
    }
  }

  /** Bookmarks added in front are behind the cursor: what remains after it is unchanged. */
  lemma RemainingIsStable(before: seq<Id>, after: seq<Id>, i: nat)
    requires Distinct(before) && GrownInFront(before, after) && i < |before|
    ensures Remaining(after, Some(before[i])) == Remaining(before, Some(before[i])) == before[i + 1..]
  {
    var shift := |after| - |before|;
    assert after[shift..][i] == after[shift + i];
    DropOfDrop(after, shift, i + 1);
    IndexOfUnique(before, i);
    IndexOfUnique(after, shift + i);
    hide Distinct;
  }

  /** One page takes the next `take` of what remains, or all of it and says so. */
  lemma PageTakesNext(ids: seq<Id>, cursor: Option<Id>, take: nat)
    requires take >= 1
    ensures var page, rest := PageIds(ids, cursor, take), Remaining(ids, cursor);
            if |rest| <= take then page == Window(rest, None)
            else page == Window(rest[..take], Some(rest[take - 1]))
  {
    var start := Start(ids, cursor);
    if ids != [] && start + take < |ids| {
      assert ids[start..start + take] == ids[start..][..take];
    } else if ids != [] && start + take == |ids| {
      assert ids[start..start + take] == ids[start..];
    }
  }

  /**
   The walk ends after a number of fetches that only the bookmarks remaining at its first fetch decide, and
   what it returns is exactly the visible ones of those, in order, each once: pages that lose posts and
   bookmarks added in front between fetches change nothing.
   */
  lemma {:induction false} WalkReturnsVisibleBookmarks(
    lists: seq<seq<Id>>, cursor: Option<Id>, take: nat, visible: set<Id>)
    requires take >= 1 && Growing(lists) && lists != []
    requires |lists| >= Fetches(|Remaining(lists[0], cursor)|, take)
    ensures Walk(lists, cursor, take, visible) == Visible(Remaining(lists[0], cursor), visible)
    ensures Completes(lists[..Fetches(|Remaining(lists[0], cursor)|, take)], cursor, take)
    ensures forall k :: 0 <= k < Fetches(|Remaining(lists[0], cursor)|, take) ==> !Completes(lists[..k], cursor, take)
    decreases |lists|
  {
    hide PageIds, Distinct, Start, Visible, Remaining, GrownInFront;
    var rest := Remaining(lists[0], cursor);
    PageTakesNext(lists[0], cursor, take);
    if |rest| <= take {
      assert lists[..1][0] == lists[0];
    } else {
      assert Fetches(|rest|, take) == 1 + Fetches(|rest| - take, take);
      assert GrownInFront(lists[0], lists[1]);
      NextRemaining(lists[0], lists[1], cursor, take);
      TailGrows(lists);
      WalkReturnsVisibleBookmarks(lists[1..], Some(rest[take - 1]), take, visible);
      VisibleOfConcat(rest[..take], rest[take..], visible);
      assert rest == rest[..take] + rest[take..];
      forall k | 0 < k <= |lists|
        ensures Completes(lists[..k], cursor, take) == Completes(lists[1..][..k - 1], Some(rest[take - 1]), take)
      {
        assert lists[..k][0] == lists[0] && lists[..k][1..] == lists[1..][..k - 1];
      }
    }
  }

  lemma TailGrows(lists: seq<seq<Id>>)
    requires Growing(lists) && lists != []
    ensures Growing(lists[1..])
  {
    hide Distinct, GrownInFront;
  }

  /** The next fetch finds exactly what the last one left. */
  lemma NextRemaining(before: seq<Id>, after: seq<Id>, cursor: Option<Id>, take: nat)
    requires take >= 1 && Distinct(before) && GrownInFront(before, after) && |Remaining(before, cursor)| > take
    ensures Remaining(after, Some(Remaining(before, cursor)[take - 1])) == Remaining(before, cursor)[take..]
  {
    hide GrownInFront;
    var start := Start(before, cursor);
    RemainingIsStable(before, after, start + take - 1);
  }

  /** From the first page: all visible bookmarks there were, in order. */
  lemma WholeWalk(lists: seq<seq<Id>>, take: nat, visible: set<Id>)
    requires take >= 1 && Growing(lists) && lists != [] && |lists| >= Fetches(|lists[0]|, take)
    ensures Completes(lists[..Fetches(|lists[0]|, take)], None, take)
    ensures Walk(lists, None, take, visible) == Visible(lists[0], visible)
    ensures forall id :: id in Walk(lists, None, take, visible) <==> id in lists[0] && id in visible
    ensures Distinct(Walk(lists, None, take, visible))
  {
    WalkReturnsVisibleBookmarks(lists, None, take, visible);
    VisibleIsFaithful(lists[0], visible);
  }

  lemma {:induction false} VisibleIsFaithful(ids: seq<Id>, visible: set<Id>)
    requires Distinct(ids)
    ensures forall id :: id in Visible(ids, visible) <==> id in ids && id in visible
    ensures Distinct(Visible(ids, visible))
    decreases |ids|
  {
    if ids != [] {
      VisibleIsFaithful(ids[1..], visible);
      assert ids[0] !in ids[1..];
      assert forall id :: id in ids <==> id == ids[0] || id in ids[1..];
    }
  }

  /** A cursor whose bookmark was removed shows the first page again. */
  lemma LostCursorStartsOver(ids: seq<Id>, cursor: Id, take: nat)
    requires take >= 1
    ensures cursor !in ids ==> PageIds(ids, Some(cursor), take) == PageIds(ids, None, take)
  {
  }
}
