/**
 The feeds: selection, ordering, paging, access gating and decoration of posts. Two databases that differ
 only in what the posts locked for a viewer contain give that viewer the same feeds.
 */
module Feeds {
  import opened Wrappers
  import opened Sequences
  import opened Calendar
  import L = Ledger
  import opened Access
  import P = Pagination
  import B = Bookmarks

  type Text = string

  datatype Attachment = Attachment(media: Id, kind: nat, width: Option<nat>, height: Option<nat>)

  datatype Post = Post(id: Id, author: Id, body: Option<Text>, access: ContentAccess, priceCents: Option<int>,
                       createdAt: Instant, pinned: bool, likeCount: int, commentCount: int, media: seq<Attachment>,
                       published: bool, deleted: bool)

  datatype Profile = Profile(username: Text, displayName: Text, avatar: Option<Id>, verified: bool)

  /** The tables behind the feeds; bookmarks are listed newest first. */
  datatype Db = Db(posts: seq<Post>, profiles: map<Id, Profile>, likes: set<(Id, Id)>, bookmarks: seq<(Id, Id)>,
                   ledger: L.Ledger)

  /** A post as the viewer gets it: its content, or only the number of its attachments. */
  datatype Content = Open(body: Option<Text>, media: seq<Attachment>) | Locked(mediaCount: nat, body: Option<Text>)

  datatype Item = Item(id: Id, author: Id, access: ContentAccess, priceCents: Option<int>, createdAt: Instant,
                       pinned: bool, likeCount: int, commentCount: int, content: Content,
                       profile: Option<Profile>, likedByMe: bool, bookmarkedByMe: bool)

  datatype Feed = Feed(items: seq<Item>, nextCursor: Option<Id>)

  // ------------------------------------------------------------ shaping

  function Gate(p: Post): PostGate { PostGate(p.id, p.author, p.access) }

  predicate Entitled(db: Db, viewer: Viewer, p: Post, now: Instant)
  {
    IsEntitledToPost(db.ledger, viewer, Gate(p), now)
  }

  function AuthorsOf(posts: seq<Post>): set<Id> { set p | p in posts :: p.author }

  function IdsOf(posts: seq<Post>): set<Id> { set p | p in posts :: p.id }

  /** The batched lookups, one query each for the whole page. */
  function ProfilesFor(db: Db, posts: seq<Post>): map<Id, Profile>
  {
    map a | a in AuthorsOf(posts) && a in db.profiles :: db.profiles[a]
  }

  function LikedAmong(db: Db, viewer: Viewer, posts: seq<Post>): set<Id>
  {
    set l | l in db.likes && viewer == Some(l.0) && l.1 in IdsOf(posts) :: l.1
  }

  function BookmarkedAmong(db: Db, viewer: Viewer, posts: seq<Post>): set<Id>
  {
    set b | b in db.bookmarks && viewer == Some(b.0) && b.1 in IdsOf(posts) :: b.1
  }

  function ContentFor(db: Db, viewer: Viewer, p: Post, now: Instant): Content
  {
    if Entitled(db, viewer, p, now) then Open(p.body, p.media)
    else Locked(|p.media|, if p.access == Free then p.body else None)
  }

  function Shape(db: Db, viewer: Viewer, p: Post, now: Instant, profiles: map<Id, Profile>, liked: set<Id>,
                 marked: set<Id>): Item
  {
    Item(p.id, p.author, p.access, p.priceCents, p.createdAt, p.pinned, p.likeCount, p.commentCount,
         ContentFor(db, viewer, p, now),
         if p.author in profiles then Some(profiles[p.author]) else None, p.id in liked, p.id in marked)
  }

  function ShapeAll(db: Db, viewer: Viewer, posts: seq<Post>, now: Instant,
                    profiles: map<Id, Profile>, liked: set<Id>, marked: set<Id>): seq<Item>
  {
    if posts == [] then []
    else
      var first := Shape(db, viewer, posts[0], now, profiles, liked, marked);
      [first] + ShapeAll(db, viewer, posts[1..], now, profiles, liked, marked)
  }

  function ShapeAndDecorate(db: Db, viewer: Viewer, posts: seq<Post>, now: Instant): seq<Item>
  {
    ShapeAll(db, viewer, posts, now, ProfilesFor(db, posts), LikedAmong(db, viewer, posts),
             BookmarkedAmong(db, viewer, posts))
  }

  /** One post shaped on its own, with a lookup for each flag. */
  function ShapeAlone(db: Db, viewer: Viewer, p: Post, now: Instant): Item
  {
    Item(p.id, p.author, p.access, p.priceCents, p.createdAt, p.pinned, p.likeCount, p.commentCount,
         ContentFor(db, viewer, p, now),
         if p.author in db.profiles then Some(db.profiles[p.author]) else None,
         viewer.Some? && (viewer.value, p.id) in db.likes, viewer.Some? && (viewer.value, p.id) in db.bookmarks)
  }

  lemma {:induction false} ShapeAllAt(db: Db, viewer: Viewer, posts: seq<Post>, now: Instant,
                                      profiles: map<Id, Profile>, liked: set<Id>, marked: set<Id>)
    ensures |ShapeAll(db, viewer, posts, now, profiles, liked, marked)| == |posts|
    ensures forall i :: 0 <= i < |posts| ==>
      ShapeAll(db, viewer, posts, now, profiles, liked, marked)[i]
        == Shape(db, viewer, posts[i], now, profiles, liked, marked)
    decreases |posts|
  {
    hide Shape;
    if posts != [] {
      ShapeAllAt(db, viewer, posts[1..], now, profiles, liked, marked);
      assert forall i :: 0 < i < |posts| ==> posts[i] == posts[1..][i - 1];
    }
  }

  /** The batched lookups give each post exactly what its own lookups would. */
  lemma BatchingChangesNothing(db: Db, viewer: Viewer, posts: seq<Post>, now: Instant)
    ensures |ShapeAndDecorate(db, viewer, posts, now)| == |posts|
    ensures forall i :: 0 <= i < |posts| ==>
      ShapeAndDecorate(db, viewer, posts, now)[i] == ShapeAlone(db, viewer, posts[i], now)
  {
    hide ContentFor;
    ShapeAllAt(db, viewer, posts, now, ProfilesFor(db, posts), LikedAmong(db, viewer, posts),
               BookmarkedAmong(db, viewer, posts));
    forall i | 0 <= i < |posts|
      ensures Shape(db, viewer, posts[i], now, ProfilesFor(db, posts), LikedAmong(db, viewer, posts),
                    BookmarkedAmong(db, viewer, posts))
           == ShapeAlone(db, viewer, posts[i], now)
    {
      SameLookups(db, viewer, posts, posts[i]);
    }
  }

  lemma SameLookups(db: Db, viewer: Viewer, posts: seq<Post>, p: Post)
    requires p in posts
    ensures p.author in ProfilesFor(db, posts) <==> p.author in db.profiles
    ensures p.author in db.profiles ==> ProfilesFor(db, posts)[p.author] == db.profiles[p.author]
    ensures p.id in LikedAmong(db, viewer, posts) <==> viewer.Some? && (viewer.value, p.id) in db.likes
    ensures p.id in BookmarkedAmong(db, viewer, posts) <==> viewer.Some? && (viewer.value, p.id) in db.bookmarks
  {
    assert p.id in IdsOf(posts) && p.author in AuthorsOf(posts);
  }

  /** What a viewer is not entitled to comes without body and without any attachment. */
  lemma LockedHidesEverything(db: Db, viewer: Viewer, posts: seq<Post>, now: Instant, i: nat)
    requires i < |posts| && !Entitled(db, viewer, posts[i], now)
    ensures i < |ShapeAndDecorate(db, viewer, posts, now)|
    ensures ShapeAndDecorate(db, viewer, posts, now)[i].content == Locked(|posts[i].media|, None)
  {
    BatchingChangesNothing(db, viewer, posts, now);
  }

  // ------------------------------------------------------------ the three feeds

  datatype Order = PinnedThenNewest | Newest

  /** a is listed before b, whatever came first before. */
  predicate Precedes(a: Post, b: Post, order: Order)
  {
    if order == PinnedThenNewest && a.pinned != b.pinned then a.pinned else a.createdAt > b.createdAt
  }

  function Insert(posts: seq<Post>, p: Post, order: Order): seq<Post>
  {
    if posts == [] then [p]
    else if Precedes(p, posts[|posts| - 1], order) then Insert(posts[..|posts| - 1], p, order) + [posts[|posts| - 1]]
    else posts + [p]
  }

  function SortPosts(posts: seq<Post>, order: Order): seq<Post>
  {
    if posts == [] then [] else Insert(SortPosts(posts[..|posts| - 1], order), posts[|posts| - 1], order)
  }

  predicate Shown(p: Post) { p.published && !p.deleted }

  function ByAuthors(posts: seq<Post>, authors: set<Id>): seq<Post>
  {
    if posts == [] then []
    else
      var rest := ByAuthors(posts[..|posts| - 1], authors);
      var p := posts[|posts| - 1];
      if Shown(p) && p.author in authors then rest + [p] else rest
  }

  /** The ordered result of a query as a table of rows, ranked by position. */
  function Rows(posts: seq<Post>): seq<P.Row<Post>>
  {
    seq(|posts|, i requires 0 <= i < |posts| => P.Row(posts[i].id, i, posts[i]))
  }

  function PostsOf(rows: seq<P.Row<Post>>): seq<Post> { seq(|rows|, i requires 0 <= i < |rows| => rows[i].data) }

  function PagedFeed(db: Db, viewer: Viewer, posts: seq<Post>, cursor: Option<Id>, take: int, now: Instant): Feed
  {
    var page := P.FetchPage(Rows(posts), cursor, take);
    Feed(ShapeAndDecorate(db, viewer, PostsOf(page.items), now), page.nextCursor)
  }

  function CreatorFeed(db: Db, viewer: Viewer, creator: Id, cursor: Option<Id>, take: int, now: Instant): Feed
  {
    PagedFeed(db, viewer, SortPosts(ByAuthors(db.posts, {creator}), PinnedThenNewest), cursor, take, now)
  }

  function HomeFeed(db: Db, viewer: Id, cursor: Option<Id>, take: int, now: Instant): Feed
  {
    PagedFeed(db, Some(viewer), SortPosts(ByAuthors(db.posts, HomeFeedAuthors(db.ledger, viewer, now)), Newest),
              cursor, take, now)
  }

  // ------------------------------------------------------------ what a feed lists

  predicate Listed(posts: seq<Post>, order: Order)
  {
    forall i, j :: 0 <= i < j < |posts| ==> !Precedes(posts[j], posts[i], order)
  }

  predicate DistinctIds(posts: seq<Post>) { forall i, j :: 0 <= i < j < |posts| ==> posts[i].id != posts[j].id }

  /** Insertion finds a place in the order and adds nothing but its post. */
  lemma {:induction false} InsertAt(posts: seq<Post>, p: Post, order: Order) returns (n: nat)
    ensures n <= |posts| && Insert(posts, p, order) == posts[..n] + [p] + posts[n..]
    ensures forall i :: n <= i < |posts| ==> Precedes(p, posts[i], order)
    ensures n > 0 ==> !Precedes(p, posts[n - 1], order)
    decreases |posts|
  {
    hide Precedes;
    n := |posts|;
    if posts != [] && Precedes(p, posts[|posts| - 1], order) {
      var prefix, last := posts[..|posts| - 1], [posts[|posts| - 1]];
      n := InsertAt(prefix, p, order);
      assert posts == prefix + last;
      SliceConcat(prefix, last, n);
    }
  }

  lemma PrecedesIsAnOrder(order: Order)
    ensures forall a, b, c :: !Precedes(b, a, order) && !Precedes(c, b, order) ==> !Precedes(c, a, order)
    ensures forall a, b :: Precedes(a, b, order) ==> !Precedes(b, a, order)
  {
  }

  lemma {:induction false} SortPostsSorts(posts: seq<Post>, order: Order)
    ensures Listed(SortPosts(posts, order), order)
    ensures multiset(SortPosts(posts, order)) == multiset(posts)
    ensures DistinctIds(posts) ==> DistinctIds(SortPosts(posts, order))
    decreases |posts|
  {
    hide Precedes, Insert;
    if posts != [] {
      var prefix, p := posts[..|posts| - 1], posts[|posts| - 1];
      assert posts == prefix + [p];
      assert DistinctIds(posts) ==> DistinctIds(prefix) && forall x :: x in prefix ==> x.id != p.id;
      hide Listed, DistinctIds;
      SortPostsSorts(prefix, order);
      var sorted := SortPosts(prefix, order);
      var n := InsertAt(sorted, p, order);
      InsertedIsListed(sorted, p, n, order);
      InsertedIsOneMore(sorted, p, n);
      if DistinctIds(posts) {
        SameMembers(sorted, prefix);
        InsertedIsDistinct(sorted, p, n);
      }
    }
  }

  lemma InsertedIsOneMore(posts: seq<Post>, p: Post, n: nat)
    requires n <= |posts|
    ensures multiset(posts[..n] + [p] + posts[n..]) == multiset(posts) + multiset{p}
  {
    assert posts == posts[..n] + posts[n..];
  }

  lemma SameMembers(xs: seq<Post>, ys: seq<Post>)
    requires multiset(xs) == multiset(ys)
    ensures forall p :: p in xs <==> p in ys
  {
    assert forall p :: p in xs <==> p in multiset(xs);
    assert forall p :: p in ys <==> p in multiset(ys);
  }

  lemma InsertedIsListed(posts: seq<Post>, p: Post, n: nat, order: Order)
    requires Listed(posts, order) && n <= |posts|
    requires forall i :: n <= i < |posts| ==> Precedes(p, posts[i], order)
    requires n > 0 ==> !Precedes(p, posts[n - 1], order)
    ensures Listed(posts[..n] + [p] + posts[n..], order)
  {
    PrecedesIsAnOrder(order);
    hide Precedes;
    forall i | 0 <= i < n ensures !Precedes(p, posts[i], order) {
      assert i < n - 1 ==> !Precedes(posts[n - 1], posts[i], order);
    }
  }

  lemma InsertedIsDistinct(posts: seq<Post>, p: Post, n: nat)
    requires DistinctIds(posts) && n <= |posts| && forall x :: x in posts ==> x.id != p.id
    ensures DistinctIds(posts[..n] + [p] + posts[n..])
  {
    assert forall i :: 0 <= i < |posts| ==> posts[i] in posts;
  }

  lemma {:induction false} ByAuthorsSelects(posts: seq<Post>, authors: set<Id>)
    ensures forall p :: p in ByAuthors(posts, authors) <==> p in posts && Shown(p) && p.author in authors
    ensures DistinctIds(posts) ==> DistinctIds(ByAuthors(posts, authors))
    decreases |posts|
  {
    hide Shown;
    if posts != [] {
      var prefix, p := posts[..|posts| - 1], posts[|posts| - 1];
      assert posts == prefix + [p];
      ByAuthorsSelects(prefix, authors);
      assert DistinctIds(posts) ==> forall x :: x in prefix ==> x.id != p.id;
    }
  }

  lemma RowsAreOrdered(posts: seq<Post>)
    requires DistinctIds(posts)
    ensures P.Ordered(Rows(posts))
  {
  }

  lemma PostsOfRows(posts: seq<Post>)
    ensures PostsOf(Rows(posts)) == posts
  {
  }

  /**
   Following a feed's cursors shows every published post of its authors exactly once, in the feed's order.
   */
  lemma FeedWalkShowsEveryPost(posts: seq<Post>, authors: set<Id>, order: Order, take: int)
    requires DistinctIds(posts)
    ensures var listed := SortPosts(ByAuthors(posts, authors), order);
            && P.Ordered(Rows(listed)) && PostsOf(P.Concat(P.Walk(Rows(listed), None, take))) == listed
            && DistinctIds(listed) && Listed(listed, order)
            && forall p :: p in listed <==> p in posts && p.published && !p.deleted && p.author in authors
  {
    var selected := ByAuthors(posts, authors);
    var listed := SortPosts(selected, order);
    ByAuthorsSelects(posts, authors);
    SortPostsSorts(selected, order);
    hide SortPosts, ByAuthors, Listed;
    SameMembers(listed, selected);
    RowsAreOrdered(listed);
    hide P.Ordered, DistinctIds, Rows, PostsOf;
    P.WalkIsTheWholeTable(Rows(listed), take);
    PostsOfRows(listed);
  }

  function BookmarkedIds(marks: seq<(Id, Id)>, viewer: Id): seq<Id>
  {
    if marks == [] then []
    else if marks[0].0 == viewer then [marks[0].1] + BookmarkedIds(marks[1..], viewer)
    else BookmarkedIds(marks[1..], viewer)
  }

  function Find(posts: seq<Post>, id: Id): Option<Post>
  {
    if posts == [] then None
    else if posts[0].id == id && Shown(posts[0]) then Some(posts[0])
    else Find(posts[1..], id)
  }

  /** The posts of a window of ids, in its order, less those that are not shown. */
  function Hydrate(posts: seq<Post>, ids: seq<Id>): seq<Post>
  {
    if ids == [] then []
    else
      var p := Find(posts, ids[0]);
      (if p.Some? then [p.value] else []) + Hydrate(posts, ids[1..])
  }

  function BookmarksFeed(db: Db, viewer: Id, cursor: Option<Id>, take: nat, now: Instant): Feed
    requires take >= 1
  {
    var window := B.PageIds(BookmarkedIds(db.bookmarks, viewer), cursor, take);
    Feed(ShapeAndDecorate(db, Some(viewer), Hydrate(db.posts, window.ids), now), window.nextCursor)
  }

  /** A bookmarks page shows the ids that the bookmark walk is about. */
  lemma {:induction false} HydrateShowsVisible(posts: seq<Post>, ids: seq<Id>)
    ensures |Hydrate(posts, ids)| == |B.Visible(ids, ShownIds(posts))|
    ensures forall i :: 0 <= i < |Hydrate(posts, ids)| ==>
      Hydrate(posts, ids)[i].id == B.Visible(ids, ShownIds(posts))[i]
    decreases |ids|
  {
    if ids != [] {
      HydrateShowsVisible(posts, ids[1..]);
      FindIsLookup(posts, ids[0]);
    }
  }

  function ShownIds(posts: seq<Post>): set<Id> { set p | p in posts && Shown(p) :: p.id }

  lemma {:induction false} FindIsLookup(posts: seq<Post>, id: Id)
    ensures Find(posts, id).Some? <==> id in ShownIds(posts)
    ensures Find(posts, id).Some? ==> Find(posts, id).value.id == id
    decreases |posts|
  {
    if posts != [] {
      FindIsLookup(posts[1..], id);
      assert forall p :: p in posts <==> p == posts[0] || p in posts[1..];
    }
  }

  // ------------------------------------------------------------ what a viewer is shown

  /** An item that says of a post what this viewer may know: all of it, or all but body and attachments. */
  predicate Says(db: Db, viewer: Viewer, now: Instant, p: Post, item: Item)
  {
    && item.id == p.id && item.author == p.author && item.access == p.access && item.priceCents == p.priceCents
    && item.createdAt == p.createdAt && item.pinned == p.pinned
    && item.likeCount == p.likeCount && item.commentCount == p.commentCount
    && (item.profile.Some? <==> p.author in db.profiles)
    && (item.profile.Some? ==> item.profile.value == db.profiles[p.author])
    && (item.likedByMe <==> viewer.Some? && (viewer.value, p.id) in db.likes)
    && (item.bookmarkedByMe <==> viewer.Some? && (viewer.value, p.id) in db.bookmarks)
    && (IsEntitledToPost(db.ledger, viewer, PostGate(p.id, p.author, p.access), now) ==>
          item.content == Open(p.body, p.media))
    && (!IsEntitledToPost(db.ledger, viewer, PostGate(p.id, p.author, p.access), now) ==>
          item.content == Locked(|p.media|, None))
  }

  /** Each item says what its own post says. */
  lemma ItemsSayTheirPosts(db: Db, viewer: Viewer, posts: seq<Post>, now: Instant)
    ensures |ShapeAndDecorate(db, viewer, posts, now)| == |posts|
    ensures forall i :: 0 <= i < |posts| ==>
      Says(db, viewer, now, posts[i], ShapeAndDecorate(db, viewer, posts, now)[i])
  {
    BatchingChangesNothing(db, viewer, posts, now);
    hide ShapeAndDecorate, IsEntitledToPost;
    forall i | 0 <= i < |posts| ensures Says(db, viewer, now, posts[i], ShapeAlone(db, viewer, posts[i], now)) {
      FreeIsOpen(db.ledger, viewer, posts[i], now);
    }
  }

  /** The posts of a feed: the published ones of its authors, each once, newest first behind any pinned ones. */
  ghost predicate Selection(posts: seq<Post>, byAuthor: Id -> bool, pinnedFirst: bool, listed: seq<Post>)
  {
    && (forall p :: p in listed <==> p in posts && p.published && !p.deleted && byAuthor(p.author))
    && (forall i, j :: 0 <= i < j < |listed| ==>
          && listed[i].id != listed[j].id
          && (pinnedFirst && listed[j].pinned ==> listed[i].pinned)
          && (!pinnedFirst || listed[i].pinned == listed[j].pinned ==> listed[i].createdAt >= listed[j].createdAt))
  }

  /** The page of a list that starts after n posts, at most 50 and at least one long where there are enough. */
  ghost predicate PageSays(db: Db, viewer: Viewer, now: Instant, listed: seq<Post>, n: nat, take: int, feed: Feed)
  {
    var limit := if take < 1 then 1 else if take > 50 then 50 else take;
    var m := if n + limit < |listed| then n + limit else |listed|;
    && n <= |listed| && |feed.items| == m - n
    && (forall k :: 0 <= k < m - n ==> Says(db, viewer, now, listed[n + k], feed.items[k]))
    && feed.nextCursor == (if m < |listed| then Some(listed[m - 1].id) else None)
  }

  /** Where a cursor points: behind the post with that id, and behind everything when there is none. */
  ghost predicate StartsAfter(listed: seq<Post>, cursor: Option<Id>, n: nat)
  {
    && n <= |listed|
    && (cursor.None? ==> n == 0)
    && (cursor.Some? && (exists p :: p in listed && p.id == cursor.value) ==> n > 0 && listed[n - 1].id == cursor.value)
    && (cursor.Some? && (forall p :: p in listed ==> p.id != cursor.value) ==> n == |listed|)
  }

  lemma CursorStartsAfter(listed: seq<Post>, cursor: Option<Id>)
    ensures StartsAfter(listed, cursor, P.AfterCursor(Rows(listed), cursor))
  {
    hide P.IndexAfter;
    var rows := Rows(listed);
    assert forall i :: 0 <= i < |rows| ==> rows[i].id == listed[i].id;
    if cursor.Some? && exists p :: p in listed && p.id == cursor.value {
      var i :| 0 <= i < |listed| && listed[i].id == cursor.value;
      assert rows[i].id == cursor.value;
    }
  }

  lemma PagedFeedShows(db: Db, viewer: Viewer, listed: seq<Post>, cursor: Option<Id>, take: int, now: Instant)
    ensures PageSays(db, viewer, now, listed, P.AfterCursor(Rows(listed), cursor), take,
                     PagedFeed(db, viewer, listed, cursor, take, now))
  {
    var page := P.FetchPage(Rows(listed), cursor, take);
    PageOfPosts(listed, cursor, take);
    ItemsSayTheirPosts(db, viewer, PostsOf(page.items), now);
    hide P.FetchPage, P.AfterCursor, P.Limit, Says, ShapeAndDecorate, Rows;
  }

  lemma ListedIsSelection(posts: seq<Post>, authors: set<Id>, order: Order)
    requires DistinctIds(posts)
    ensures Selection(posts, (a: Id) => a in authors, order
      == PinnedThenNewest, SortPosts(ByAuthors(posts, authors), order))
  {
    FeedWalkShowsEveryPost(posts, authors, order, 1);
    hide SortPosts, ByAuthors, P.Walk, P.Concat, Rows, PostsOf;
  }

  /** A page of a creator's posts, entitled ones open and the others locked, whatever the cursor. */
  lemma CreatorFeedShows(db: Db, viewer: Viewer, creator: Id, cursor: Option<Id>, take: int, now: Instant)
    returns (listed: seq<Post>, n: nat)
    requires DistinctIds(db.posts)
    ensures Selection(db.posts, (a: Id) => a == creator, true, listed) && StartsAfter(listed, cursor, n)
    ensures PageSays(db, viewer, now, listed, n, take, CreatorFeed(db, viewer, creator, cursor, take, now))
  {
    hide *;
    var authors := {creator};
    listed := SortPosts(ByAuthors(db.posts, authors), PinnedThenNewest);
    n := P.AfterCursor(Rows(listed), cursor);
    ListedIsSelection(db.posts, authors, PinnedThenNewest);
    SameSelection(db.posts, (a: Id) => a in authors, (a: Id) => a == creator, true, listed);
    CursorStartsAfter(listed, cursor);
    PagedFeedShows(db, viewer, listed, cursor, take, now);
    FeedsArePaged(db, viewer, creator, cursor, take, now);
  }

  lemma SameSelection(posts: seq<Post>, byAuthor: Id -> bool, byAuthor': Id -> bool, pinnedFirst: bool,
                      listed: seq<Post>)
    requires Selection(posts, byAuthor, pinnedFirst, listed) && forall a :: byAuthor(a) == byAuthor'(a)
    ensures Selection(posts, byAuthor', pinnedFirst, listed)
  {
  }

  lemma FeedsArePaged(db: Db, viewer: Viewer, id: Id, cursor: Option<Id>, take: int, now: Instant)
    ensures CreatorFeed(db, viewer, id, cursor, take, now)
         == PagedFeed(db, viewer, SortPosts(ByAuthors(db.posts, {id}), PinnedThenNewest), cursor, take, now)
    ensures var authors := HomeFeedAuthors(db.ledger, id, now);
            HomeFeed(db, id, cursor, take, now)
            == PagedFeed(db, Some(id), SortPosts(ByAuthors(db.posts, authors), Newest), cursor, take, now)
  {
    hide PagedFeed, SortPosts, ByAuthors, HomeFeedAuthors;
  }

  /** The viewer's own posts count, and those of every creator to whom a subscription of theirs is running. */
  predicate OnHomeFeed(l: L.Ledger, viewer: Id, now: Instant, author: Id)
  {
    || author == viewer
    || ((viewer, author) in l.subs && l.subs[(viewer, author)].status in {L.Active, L.Trialing}
        && l.subs[(viewer, author)].periodEnd > now)
  }

  lemma HomeFeedShows(db: Db, viewer: Id, cursor: Option<Id>, take: int, now: Instant)
    returns (listed: seq<Post>, n: nat)
    requires DistinctIds(db.posts)
    ensures Selection(db.posts, (a: Id) => OnHomeFeed(db.ledger, viewer, now, a), false, listed)
    ensures StartsAfter(listed, cursor, n)
    ensures PageSays(db, Some(viewer), now, listed, n, take, HomeFeed(db, viewer, cursor, take, now))
  {
    hide *;
    var authors := HomeFeedAuthors(db.ledger, viewer, now);
    listed := SortPosts(ByAuthors(db.posts, authors), Newest);
    n := P.AfterCursor(Rows(listed), cursor);
    ListedIsSelection(db.posts, authors, Newest);
    HomeFeedAuthorsAre(db.ledger, viewer, now);
    SameSelection(db.posts, (a: Id) => a in authors, (a: Id) => OnHomeFeed(db.ledger, viewer, now, a), false, listed);
    CursorStartsAfter(listed, cursor);
    PagedFeedShows(db, Some(viewer), listed, cursor, take, now);
    FeedsArePaged(db, None, viewer, cursor, take, now);
  }

  lemma HomeFeedAuthorsAre(l: L.Ledger, viewer: Id, now: Instant)
    ensures forall a :: a in HomeFeedAuthors(l, viewer, now) <==> OnHomeFeed(l, viewer, now, a)
  {
  }

  /** The viewer's bookmarked posts in the order of their bookmarks, each with its place among all bookmarks. */
  ghost predicate BookmarkList(marks: seq<(Id, Id)>, viewer: Id, ids: seq<Id>, places: seq<nat>)
  {
    && |places| == |ids|
    && (forall k :: 0 <= k < |ids| ==> places[k] < |marks| && marks[places[k]] == (viewer, ids[k]))
    && (forall j, k :: 0 <= j < k < |ids| ==> places[j] < places[k])
    && (forall id :: (viewer, id) in marks ==> id in ids)
  }

  lemma {:induction false} BookmarkedIdsInOrder(marks: seq<(Id, Id)>, viewer: Id) returns (places: seq<nat>)
    ensures BookmarkList(marks, viewer, BookmarkedIds(marks, viewer), places)
    decreases |marks|
  {
    if marks == [] {
      places := [];
    } else {
      var later := BookmarkedIdsInOrder(marks[1..], viewer);
      var ids := BookmarkedIds(marks[1..], viewer);
      places := seq(|later|, i requires 0 <= i < |later| => later[i] + 1);
      LaterBookmarks(marks, viewer, ids, later, places);
      if marks[0].0 == viewer {
        FirstBookmark(marks, viewer, ids, places);
        places := [0] + places;
      }
      hide BookmarkList;
    }
  }

  lemma LaterBookmarks(marks: seq<(Id, Id)>, viewer: Id, ids: seq<Id>, later: seq<nat>, places: seq<nat>)
    requires marks != [] && BookmarkList(marks[1..], viewer, ids, later) && |places| == |later|
    requires forall k :: 0 <= k < |later| ==> places[k] == later[k] + 1
    ensures |places| == |ids| && forall k :: 0 <= k < |ids| ==>
      0 < places[k] < |marks| && marks[places[k]] == (viewer, ids[k])
    ensures forall j, k :: 0 <= j < k < |ids| ==> places[j] < places[k]
    ensures forall id :: (viewer, id) in marks ==> id in ids || (viewer, id) == marks[0]
    ensures marks[0].0 != viewer ==> BookmarkList(marks, viewer, ids, places)
  {
    forall k | 0 <= k < |ids| ensures 0 < places[k] < |marks| && marks[places[k]] == (viewer, ids[k]) {
      assert marks[1..][later[k]] == marks[places[k]];
    }
    forall id | (viewer, id) in marks ensures id in ids || (viewer, id) == marks[0] {
      var i :| 0 <= i < |marks| && marks[i] == (viewer, id);
      if i > 0 { assert marks[1..][i - 1] == (viewer, id); }
    }
  }

  lemma FirstBookmark(marks: seq<(Id, Id)>, viewer: Id, ids: seq<Id>, places: seq<nat>)
    requires marks != [] && marks[0].0 == viewer && |places| == |ids|
    requires forall k :: 0 <= k < |ids| ==> 0 < places[k] < |marks| && marks[places[k]] == (viewer, ids[k])
    requires forall j, k :: 0 <= j < k < |ids| ==> places[j] < places[k]
    requires forall id :: (viewer, id) in marks ==> id in ids || (viewer, id) == marks[0]
    ensures BookmarkList(marks, viewer, [marks[0].1] + ids, [0] + places)
  {
    var ids', places' := [marks[0].1] + ids, [0] + places;
    forall k | 0 <= k < |ids'| ensures places'[k] < |marks| && marks[places'[k]] == (viewer, ids'[k]) {
      if k > 0 { assert places'[k] == places[k - 1] && ids'[k] == ids[k - 1]; }
    }
    forall j, k | 0 <= j < k < |ids'| ensures places'[j] < places'[k] {
      assert places'[k] == places[k - 1];
      if j > 0 { assert places'[j] == places[j - 1]; }
    }
    assert ids'[0] == marks[0].1;
    forall id | id in ids ensures id in ids' {
      var k :| 0 <= k < |ids| && ids[k] == id;
      assert ids'[k + 1] == id;
    }
  }

  lemma {:induction false} FindFinds(posts: seq<Post>, id: Id)
    ensures var found := Find(posts, id);
            && (found.Some? ==>
                  found.value in posts && found.value.published && !found.value.deleted && found.value.id == id)
            && (found.None? ==> forall p :: p in posts && p.published && !p.deleted ==> p.id != id)
    decreases |posts|
  {
    if posts != [] {
      FindFinds(posts[1..], id);
      assert forall p :: p in posts <==> p == posts[0] || p in posts[1..];
    }
  }

  lemma {:induction false} HydrateFinds(posts: seq<Post>, ids: seq<Id>)
    ensures forall p :: p in Hydrate(posts, ids) ==> p in posts && p.published && !p.deleted && p.id in ids
    ensures forall p :: p in posts && p.published && !p.deleted && p.id in ids ==>
      exists q :: q in Hydrate(posts, ids) && q.id == p.id
    ensures |Hydrate(posts, ids)| <= |ids|
    decreases |ids|
  {
    hide Find;
    if ids != [] {
      FindFinds(posts, ids[0]);
      HydrateFinds(posts, ids[1..]);
      assert forall id :: id in ids <==> id == ids[0] || id in ids[1..];
    }
  }

  lemma {:induction false} HydrateInOrder(posts: seq<Post>, ids: seq<Id>) returns (spots: seq<nat>)
    ensures InWindowOrder(ids, Hydrate(posts, ids), spots)
    decreases |ids|
  {
    hide Find;
    spots := [];
    if ids != [] {
      FindFinds(posts, ids[0]);
      var rest := HydrateInOrder(posts, ids[1..]);
      var later := seq(|rest|, k requires 0 <= k < |rest| => rest[k] + 1);
      spots := if Find(posts, ids[0]).Some? then [0] + later else later;
    }
  }

  /** The posts come in the order of the window, each from the place given. */
  ghost predicate InWindowOrder(ids: seq<Id>, shown: seq<Post>, spots: seq<nat>)
  {
    && |spots| == |shown|
    && (forall k :: 0 <= k < |spots| ==> spots[k] < |ids| && ids[spots[k]] == shown[k].id)
    && (forall j, k :: 0 <= j < k < |spots| ==> spots[j] < spots[k])
  }

  /** The published posts of a window of ids, in its order, and the items that say what they say. */
  ghost predicate WindowSays(db: Db, viewer: Id, now: Instant, ids: seq<Id>, shown: seq<Post>, items: seq<Item>)
  {
    && (exists spots :: InWindowOrder(ids, shown, spots))
    && (forall p :: p in shown ==> p in db.posts && p.published && !p.deleted && p.id in ids)
    && (forall p :: p in db.posts && p.published && !p.deleted && p.id in ids ==>
          exists q :: q in shown && q.id == p.id)
    && |items| == |shown| <= |ids|
    && (forall k :: 0 <= k < |shown| ==> Says(db, Some(viewer), now, shown[k], items[k]))
  }

  /** A page of saved posts: a window of the bookmark list, less posts that are not published. */
  lemma BookmarksFeedShows(db: Db, viewer: Id, cursor: Option<Id>, take: nat, now: Instant)
    returns (ids: seq<Id>, places: seq<nat>, start: nat, shown: seq<Post>)
    requires take >= 1
    ensures BookmarkList(db.bookmarks, viewer, ids, places)
    ensures start <= |ids| && (cursor.None? || cursor.value !in ids ==> start == 0)
    ensures cursor.Some? && cursor.value in ids ==> start > 0 && ids[start - 1] == cursor.value
    ensures var feed := BookmarksFeed(db, viewer, cursor, take, now);
            var end := if start + take < |ids| then start + take else |ids|;
            && WindowSays(db, viewer, now, ids[start..end], shown, feed.items)
            && feed.nextCursor == (if end < |ids| then Some(ids[end - 1]) else None)
  {
    hide *;
    ids := BookmarkedIds(db.bookmarks, viewer);
    places := BookmarkedIdsInOrder(db.bookmarks, viewer);
    start := B.Start(ids, cursor);
    StartOfCursor(ids, cursor);
    var window := B.PageIds(ids, cursor, take);
    WindowOfIds(ids, cursor, take);
    shown := Hydrate(db.posts, window.ids);
    WindowIsSaid(db, viewer, now, window.ids);
    BookmarksFeedIsWindow(db, viewer, cursor, take, now);
  }

  lemma BookmarksFeedIsWindow(db: Db, viewer: Id, cursor: Option<Id>, take: nat, now: Instant)
    requires take >= 1
    ensures var window := B.PageIds(BookmarkedIds(db.bookmarks, viewer), cursor, take);
            BookmarksFeed(db, viewer, cursor, take, now)
            == Feed(ShapeAndDecorate(db, Some(viewer), Hydrate(db.posts, window.ids), now), window.nextCursor)
  {
    hide B.PageIds, BookmarkedIds, ShapeAndDecorate, Hydrate;
  }

  lemma StartOfCursor(ids: seq<Id>, cursor: Option<Id>)
    ensures var start := B.Start(ids, cursor);
            && start <= |ids| && (cursor.None? || cursor.value !in ids ==> start == 0)
            && (cursor.Some? && cursor.value in ids ==> start > 0 && ids[start - 1] == cursor.value)
  {
    hide B.IndexOf;
  }

  lemma WindowOfIds(ids: seq<Id>, cursor: Option<Id>, take: nat)
    requires take >= 1
    ensures var start, window := B.Start(ids, cursor), B.PageIds(ids, cursor, take);
            var end := if start + take < |ids| then start + take else |ids|;
            window.ids == ids[start..end] && window.nextCursor == (if end < |ids| then Some(ids[end - 1]) else None)
  {
    hide B.IndexOf;
  }

  lemma WindowIsSaid(db: Db, viewer: Id, now: Instant, ids: seq<Id>)
    ensures WindowSays(db, viewer, now, ids, Hydrate(db.posts, ids),
                       ShapeAndDecorate(db, Some(viewer), Hydrate(db.posts, ids), now))
  {
    HydrateFinds(db.posts, ids);
    var spots := HydrateInOrder(db.posts, ids);
    ItemsSayTheirPosts(db, Some(viewer), Hydrate(db.posts, ids), now);
    hide ShapeAndDecorate, Hydrate, Says, InWindowOrder;
  }

  // ------------------------------------------------------------ non-interference

  /** Two versions of a post that a viewer must not be able to tell apart unless it is open to them. */
  predicate Alike(ledger: L.Ledger, viewer: Viewer, now: Instant, p: Post, q: Post)
  {
    && q == p.(body := q.body, media := q.media) && |p.media| == |q.media|
    && (IsEntitledToPost(ledger, viewer, Gate(p), now) ==> p == q)
  }

  predicate AllAlike(ledger: L.Ledger, viewer: Viewer, now: Instant, ps: seq<Post>, qs: seq<Post>)
  {
    |ps| == |qs| && forall i :: 0 <= i < |ps| ==> Alike(ledger, viewer, now, ps[i], qs[i])
  }

  /** The databases agree on everything but the contents of posts locked for this viewer. */
  predicate SameForViewer(viewer: Viewer, now: Instant, a: Db, b: Db)
  {
    b == a.(posts := b.posts) && AllAlike(a.ledger, viewer, now, a.posts, b.posts)
  }

  lemma {:induction false} InsertAlike(l: L.Ledger, viewer: Viewer, now: Instant, ps: seq<Post>, qs: seq<Post>,
                                       p: Post, q: Post, order: Order)
    requires AllAlike(l, viewer, now, ps, qs) && Alike(l, viewer, now, p, q)
    ensures AllAlike(l, viewer, now, Insert(ps, p, order), Insert(qs, q, order))
    decreases |ps|
  {
    hide IsEntitledToPost;
    if ps != [] {
      InsertAlike(l, viewer, now, ps[..|ps| - 1], qs[..|qs| - 1], p, q, order);
    }
  }

  lemma {:induction false} SortAlike(l: L.Ledger, viewer: Viewer, now: Instant, ps: seq<Post>, qs: seq<Post>,
                                     order: Order)
    requires AllAlike(l, viewer, now, ps, qs)
    ensures AllAlike(l, viewer, now, SortPosts(ps, order), SortPosts(qs, order))
    decreases |ps|
  {
    hide Alike, Insert;
    if ps != [] {
      var n := |ps| - 1;
      SortAlike(l, viewer, now, ps[..n], qs[..n], order);
      InsertAlike(l, viewer, now, SortPosts(ps[..n], order), SortPosts(qs[..n], order), ps[n], qs[n], order);
    }
  }

  lemma {:induction false} SelectAlike(l: L.Ledger, viewer: Viewer, now: Instant, ps: seq<Post>, qs: seq<Post>,
                                       authors: set<Id>)
    requires AllAlike(l, viewer, now, ps, qs)
    ensures AllAlike(l, viewer, now, ByAuthors(ps, authors), ByAuthors(qs, authors))
    decreases |ps|
  {
    hide IsEntitledToPost;
    if ps != [] {
      var n := |ps| - 1;
      SelectAlike(l, viewer, now, ps[..n], qs[..n], authors);
      assert Alike(l, viewer, now, ps[n], qs[n]);
    }
  }

  lemma {:induction false} FindAlike(l: L.Ledger, viewer: Viewer, now: Instant, ps: seq<Post>, qs: seq<Post>, id: Id)
    requires AllAlike(l, viewer, now, ps, qs)
    ensures Find(ps, id).Some? <==> Find(qs, id).Some?
    ensures Find(ps, id).Some? ==> Alike(l, viewer, now, Find(ps, id).value, Find(qs, id).value)
    decreases |ps|
  {
    hide IsEntitledToPost;
    if ps != [] {
      assert Alike(l, viewer, now, ps[0], qs[0]);
      FindAlike(l, viewer, now, ps[1..], qs[1..], id);
    }
  }

  lemma {:induction false} HydrateAlike(l: L.Ledger, viewer: Viewer, now: Instant, ps: seq<Post>, qs: seq<Post>,
                                        ids: seq<Id>)
    requires AllAlike(l, viewer, now, ps, qs)
    ensures AllAlike(l, viewer, now, Hydrate(ps, ids), Hydrate(qs, ids))
    decreases |ids|
  {
    hide Alike, Find;
    if ids != [] {
      FindAlike(l, viewer, now, ps, qs, ids[0]);
      HydrateAlike(l, viewer, now, ps, qs, ids[1..]);
    }
  }

  /** Shaping alike posts of alike databases gives the same items. */
  lemma ShapedAlike(viewer: Viewer, now: Instant, a: Db, b: Db, ps: seq<Post>, qs: seq<Post>)
    requires SameForViewer(viewer, now, a, b) && AllAlike(a.ledger, viewer, now, ps, qs)
    ensures ShapeAndDecorate(a, viewer, ps, now) == ShapeAndDecorate(b, viewer, qs, now)
  {
    BatchingChangesNothing(a, viewer, ps, now);
    BatchingChangesNothing(b, viewer, qs, now);
    hide ShapeAndDecorate, IsEntitledToPost;
    forall i | 0 <= i < |ps| ensures ShapeAlone(a, viewer, ps[i], now) == ShapeAlone(b, viewer, qs[i], now) {
      assert Alike(a.ledger, viewer, now, ps[i], qs[i]);
      FreeIsOpen(a.ledger, viewer, ps[i], now);
    }
  }

  lemma FreeIsOpen(l: L.Ledger, viewer: Viewer, p: Post, now: Instant)
    ensures p.access == Free ==> IsEntitledToPost(l, viewer, Gate(p), now)
  {
  }

  /** A page in terms of the posts themselves. */
  lemma PageOfPosts(posts: seq<Post>, cursor: Option<Id>, take: int)
    ensures var page := P.FetchPage(Rows(posts), cursor, take);
            var n, limit := P.AfterCursor(Rows(posts), cursor), P.Limit(take);
            && n <= |posts|
            && (if n + limit < |posts| then PostsOf(page.items) == posts[n..n + limit]
                  && page.nextCursor == Some(posts[n + limit - 1].id)
                else PostsOf(page.items) == posts[n..] && page.nextCursor == None)
  {
    P.PageIsTheNextRun(Rows(posts), cursor, take);
    hide P.FetchPage, P.AfterCursor, P.Limit;
  }

  lemma {:induction false} SameIndexAfter(xs: seq<P.Row<Post>>, ys: seq<P.Row<Post>>, id: Id)
    requires |xs| == |ys| && forall i :: 0 <= i < |xs| ==> xs[i].id == ys[i].id
    ensures P.IndexAfter(xs, id) == P.IndexAfter(ys, id)
    decreases |xs|
  {
    if xs != [] {
      SameIndexAfter(xs[1..], ys[1..], id);
    }
  }

  lemma SameStart(l: L.Ledger, viewer: Viewer, now: Instant, ps: seq<Post>, qs: seq<Post>, cursor: Option<Id>)
    requires AllAlike(l, viewer, now, ps, qs)
    ensures P.AfterCursor(Rows(ps), cursor) == P.AfterCursor(Rows(qs), cursor)
    ensures forall i :: 0 <= i < |ps| ==> ps[i].id == qs[i].id
  {
    hide P.IndexAfter, IsEntitledToPost;
    forall i | 0 <= i < |ps| ensures ps[i].id == qs[i].id {
      assert Alike(l, viewer, now, ps[i], qs[i]);
    }
    if cursor.Some? { SameIndexAfter(Rows(ps), Rows(qs), cursor.value); }
  }

  lemma PagesAlike(l: L.Ledger, viewer: Viewer, now: Instant, ps: seq<Post>, qs: seq<Post>, cursor: Option<Id>,
                   take: int)
    requires AllAlike(l, viewer, now, ps, qs)
    ensures var x, y := P.FetchPage(Rows(ps), cursor, take), P.FetchPage(Rows(qs), cursor, take);
            x.nextCursor == y.nextCursor && AllAlike(l, viewer, now, PostsOf(x.items), PostsOf(y.items))
  {
    SameStart(l, viewer, now, ps, qs, cursor);
    PageOfPosts(ps, cursor, take);
    PageOfPosts(qs, cursor, take);
    hide P.FetchPage, P.AfterCursor, P.Limit, Alike, Rows, PostsOf;
  }

  lemma PagedFeedsAgree(viewer: Viewer, now: Instant, a: Db, b: Db, ps: seq<Post>, qs: seq<Post>, cursor: Option<Id>,
                        take: int)
    requires SameForViewer(viewer, now, a, b) && AllAlike(a.ledger, viewer, now, ps, qs)
    ensures PagedFeed(a, viewer, ps, cursor, take, now) == PagedFeed(b, viewer, qs, cursor, take, now)
  {
    hide ShapeAndDecorate, P.FetchPage, AllAlike, SameForViewer;
    PagesAlike(a.ledger, viewer, now, ps, qs, cursor, take);
    ShapedAlike(viewer, now, a, b,
                PostsOf(P.FetchPage(Rows(ps), cursor, take).items), PostsOf(P.FetchPage(Rows(qs), cursor, take).items));
    assert SameLedger(a, b) by { SameForViewerSameLedger(viewer, now, a, b); }
  }

  predicate SameLedger(a: Db, b: Db) { a.ledger == b.ledger && a.bookmarks == b.bookmarks }

  lemma SameForViewerSameLedger(viewer: Viewer, now: Instant, a: Db, b: Db)
    requires SameForViewer(viewer, now, a, b)
    ensures SameLedger(a, b)
  {
  }

  /**
   Non-interference: the contents of posts locked for a viewer, anything but the number of their
   attachments, make no difference to any feed that viewer can fetch.
   */
  lemma LockedContentDoesNotShow(viewer: Id, public: Viewer, now: Instant, a: Db, b: Db, creator: Id,
                                 cursor: Option<Id>, take: int, window: nat)
    requires window >= 1
    ensures SameForViewer(public, now, a, b) ==>
      CreatorFeed(a, public, creator, cursor, take, now) == CreatorFeed(b, public, creator, cursor, take, now)
    ensures SameForViewer(Some(viewer), now, a, b) ==>
      HomeFeed(a, viewer, cursor, take, now) == HomeFeed(b, viewer, cursor, take, now)
    ensures SameForViewer(Some(viewer), now, a, b) ==>
      BookmarksFeed(a, viewer, cursor, window, now) == BookmarksFeed(b, viewer, cursor, window, now)
  {
    hide AllAlike, PagedFeed, ShapeAndDecorate, SortPosts, ByAuthors, Hydrate, HomeFeedAuthors;
    hide BookmarkedIds, B.PageIds;
    if SameForViewer(public, now, a, b) {
      SelectAlike(a.ledger, public, now, a.posts, b.posts, {creator});
      var ps, qs := ByAuthors(a.posts, {creator}), ByAuthors(b.posts, {creator});
      SortAlike(a.ledger, public, now, ps, qs, PinnedThenNewest);
      PagedFeedsAgree(public, now, a, b, SortPosts(ps, PinnedThenNewest), SortPosts(qs, PinnedThenNewest), cursor,
                      take);
    }
    if SameForViewer(Some(viewer), now, a, b) {
      var authors := HomeFeedAuthors(a.ledger, viewer, now);
      SelectAlike(a.ledger, Some(viewer), now, a.posts, b.posts, authors);
      var ps, qs := ByAuthors(a.posts, authors), ByAuthors(b.posts, authors);
      SortAlike(a.ledger, Some(viewer), now, ps, qs, Newest);
      PagedFeedsAgree(Some(viewer), now, a, b, SortPosts(ps, Newest), SortPosts(qs, Newest), cursor, take);
      var ids := B.PageIds(BookmarkedIds(a.bookmarks, viewer), cursor, window).ids;
      HydrateAlike(a.ledger, Some(viewer), now, a.posts, b.posts, ids);
      ShapedAlike(Some(viewer), now, a, b, Hydrate(a.posts, ids), Hydrate(b.posts, ids));
    }
  }
}
