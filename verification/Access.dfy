/** Who may see what: the access checks of posts, media and the home feed, against the payment ledger. */
module Access {
  import opened Wrappers
  import opened Calendar
  import opened Ledger
  import opened Fulfilment
  import opened Periods

  datatype ContentAccess = Free | Subscribers | PayPerView

  /** The part of a Post row that gates access. */
  datatype PostGate = PostGate(id: Id, author: Id, access: ContentAccess)

  datatype Media = Media(id: Id, owner: Id, access: ContentAccess, priceCents: Option<int>, ready: bool, deleted: bool,
                         publicId: Id)

  /** The viewer; None is the empty viewer id of the public creator page. */
  type Viewer = Option<Id>

  /** The subscription query of the post check. */
  predicate HasLiveSub(l: Ledger, viewer: Viewer, creator: Id, now: Instant)
  {
    exists k :: k in l.subs && viewer == Some(k.0) && k.1 == creator
      && (l.subs[k].status == Active || l.subs[k].status == Trialing) && l.subs[k].periodEnd > now
  }

  /** The subscription rows that the query of the media check matches. */
  function SubscriptionsToOwner(l: Ledger, viewer: Viewer, owner: Id, now: Instant): set<(Id, Id)>
  {
    set k | k in l.subs && viewer == Some(k.0) && k.1 == owner
      && l.subs[k].status in {Active, Trialing} && l.subs[k].periodEnd > now
  }

  predicate HasPostPurchase(l: Ledger, viewer: Viewer, post: Id)
  {
    exists r :: r in l.purchases && viewer == Some(l.purchases[r].buyer) && l.purchases[r].post == Some(post)
  }

  predicate HasMediaPurchase(l: Ledger, viewer: Viewer, media: Id)
  {
    exists r :: r in l.purchases && viewer == Some(l.purchases[r].buyer) && l.purchases[r].media == Some(media)
  }

  predicate IsEntitledToPost(l: Ledger, viewer: Viewer, post: PostGate, now: Instant)
  {
    if viewer == Some(post.author) then true
    else if post.access == Free then true
    else if post.access == Subscribers then HasLiveSub(l, viewer, post.author, now)
    else HasPostPurchase(l, viewer, post.id)
  }

  predicate IsEntitledToMedia(l: Ledger, viewer: Viewer, owner: Id, access: ContentAccess, media: Id, now: Instant)
  {
    if viewer == Some(owner) then true
    else if access == Free then true
    else if access == Subscribers then SubscriptionsToOwner(l, viewer, owner, now) != {}
    else HasMediaPurchase(l, viewer, media)
  }

  /** The authors whose posts the home feed selects. */
  function HomeFeedAuthors(l: Ledger, viewer: Id, now: Instant): set<Id>
  {
    {viewer} + set k | k in l.subs && k.0 == viewer
      && (l.subs[k].status == Active || l.subs[k].status == Trialing) && l.subs[k].periodEnd > now :: k.1
  }

  // ------------------------------------------------------------ media delivery

  datatype MediaError = NotFound | ContentLocked

  datatype MediaMeta = MediaMeta(id: Id, locked: bool, url: Option<Id>)

  predicate Deliverable(media: Option<Media>)
  {
    media.Some? && !media.value.deleted && media.value.ready
  }

  function GetDeliveryUrl(l: Ledger, viewer: Viewer, media: Option<Media>, now: Instant): Result<Id, MediaError>
  {
    if !Deliverable(media) then Err(NotFound)
    else
      var m := media.value;
      if IsEntitledToMedia(l, viewer, m.owner, m.access, m.id, now) then Ok(m.publicId) else Err(ContentLocked)
  }

  function GetMediaMeta(l: Ledger, viewer: Viewer, media: Option<Media>, now: Instant): Result<MediaMeta, MediaError>
  {
    if !Deliverable(media) then Err(NotFound)
    else
      var m := media.value;
      var entitled := IsEntitledToMedia(l, viewer, m.owner, m.access, m.id, now);
      Ok(MediaMeta(m.id, !entitled, if entitled then Some(m.publicId) else None))
  }

  function GetPublicUrl(media: Option<Media>): Result<Id, MediaError>
  {
    if !Deliverable(media) then Err(NotFound)
    else if media.value.access != Free then Err(ContentLocked)
    else Ok(media.value.publicId)
  }

  /** The metadata shows a URL exactly when delivery would, and the public route exactly what any stranger may fetch. */
  lemma RoutesAgree(l: Ledger, viewer: Viewer, media: Option<Media>, now: Instant)
    ensures GetMediaMeta(l, viewer, media, now).Ok? <==> GetDeliveryUrl(l, viewer, media, now) != Err(NotFound)
    ensures forall url :: GetDeliveryUrl(l, viewer, media, now) == Ok(url) <==>
      (GetMediaMeta(l, viewer, media, now).Ok? && GetMediaMeta(l, viewer, media, now).value.url == Some(url))
    ensures forall url :: GetPublicUrl(media) == Ok(url) <==> GetDeliveryUrl(l, None, media, now) == Ok(url)
  {
    hide HasMediaPurchase, HasLiveSub;
    if media.Some? {
      StrangersSeeOnlyFree(l, media.value.owner, media.value.access, media.value.id, now);
    }
  }

  lemma StrangersSeeOnlyFree(l: Ledger, owner: Id, access: ContentAccess, id: Id, now: Instant)
    ensures IsEntitledToMedia(l, None, owner, access, id, now) <==> access == Free
    ensures IsEntitledToPost(l, None, PostGate(id, owner, access), now) <==> access == Free
  {
  }

  // ------------------------------------------------------------ the rules, told by the tables

  /** The viewer has a running subscription to this creator. */
  predicate Subscribed(l: Ledger, viewer: Viewer, creator: Id, now: Instant)
  {
    && viewer.Some? && (viewer.value, creator) in l.subs
    && l.subs[(viewer.value, creator)].status in {Active, Trialing} && now < l.subs[(viewer.value, creator)].periodEnd
  }

  /** Who may see a post: its author, everybody if it is FREE, subscribers, and those with a purchase row for it. */
  lemma PostRules(l: Ledger, viewer: Viewer, post: PostGate, now: Instant)
    ensures IsEntitledToPost(l, viewer, post, now) <==>
      || viewer == Some(post.author)
      || post.access == Free
      || (post.access == Subscribers && Subscribed(l, viewer, post.author, now))
      || (post.access == PayPerView && viewer.Some? &&
          exists r :: r in l.purchases && l.purchases[r].buyer == viewer.value && l.purchases[r].post == Some(post.id))
  {
    SubscribedIsLive(l, viewer, post.author, now);
    hide HasLiveSub, Subscribed;
  }

  lemma MediaRules(l: Ledger, viewer: Viewer, owner: Id, access: ContentAccess, media: Id, now: Instant)
    ensures IsEntitledToMedia(l, viewer, owner, access, media, now) <==>
      || viewer == Some(owner)
      || access == Free
      || (access == Subscribers && Subscribed(l, viewer, owner, now))
      || (access == PayPerView && viewer.Some? &&
          exists r :: r in l.purchases && l.purchases[r].buyer == viewer.value && l.purchases[r].media == Some(media))
  {
    SubscribedIsLive(l, viewer, owner, now);
    hide SubscriptionsToOwner, Subscribed;
  }

  lemma SubscribedIsLive(l: Ledger, viewer: Viewer, creator: Id, now: Instant)
    ensures HasLiveSub(l, viewer, creator, now) <==> Subscribed(l, viewer, creator, now)
    ensures SubscriptionsToOwner(l, viewer, creator, now) != {} <==> Subscribed(l, viewer, creator, now)
  {
    if viewer.Some? {
      var k := (viewer.value, creator);
      assert Subscribed(l, viewer, creator, now) <==> k in SubscriptionsToOwner(l, viewer, creator, now);
      assert SubscriptionsToOwner(l, viewer, creator, now) <= {k};
    } else {
      assert SubscriptionsToOwner(l, viewer, creator, now) == {};
    }
  }

  /** What is delivered, and what is refused how: trashed or unready media are not found, locked ones forbidden. */
  lemma DeliveryRules(l: Ledger, viewer: Viewer, media: Option<Media>, now: Instant)
    ensures media.None? || media.value.deleted || !media.value.ready ==>
      && GetDeliveryUrl(l, viewer, media, now) == Err(NotFound) == GetPublicUrl(media)
      && GetMediaMeta(l, viewer, media, now) == Err(NotFound)
    ensures media.Some? && !media.value.deleted && media.value.ready ==>
      var m := media.value;
      var entitled := IsEntitledToMedia(l, viewer, m.owner, m.access, m.id, now);
      && GetDeliveryUrl(l, viewer, media, now) == (if entitled then Ok(m.publicId) else Err(ContentLocked))
      && GetMediaMeta(l, viewer, media, now)
           == Ok(MediaMeta(m.id, !entitled, if entitled then Some(m.publicId) else None))
      && GetPublicUrl(media) == (if m.access == Free then Ok(m.publicId) else Err(ContentLocked))
  {
    hide IsEntitledToMedia;
  }

  // ------------------------------------------------------------ access against the ledger

  predicate BoughtPost(o: Order, buyer: Id, post: Id)
  {
    Settled(o) && o.contract.kind == Purchase && o.contract.buyer == buyer && o.contract.post == Some(post)
  }

  predicate BoughtMedia(o: Order, buyer: Id, media: Id)
  {
    Settled(o) && o.contract.kind == Purchase && o.contract.buyer == buyer && o.contract.media == Some(media)
  }

  /** Pay-per-view: a viewer who does not own the post sees it exactly when a SUCCEEDED order of theirs names it. */
  lemma PaidIffPostAccessible(l: Ledger, viewer: Id, post: PostGate, now: Instant)
    requires Inv(l) && viewer != post.author && post.access == PayPerView
    ensures IsEntitledToPost(l, Some(viewer), post, now) <==>
      exists r :: r in l.orders && BoughtPost(l.orders[r], viewer, post.id)
  {
    hide MoneyConserved, SubsMatchOrders, OnePurchasePerPost, OrdersOk;
    if r :| r in l.orders && BoughtPost(l.orders[r], viewer, post.id) {
      assert r in l.purchases && l.purchases[r] == PurchaseFor(l.orders[r].contract);
    }
    if r :| r in l.purchases && Some(viewer) == Some(l.purchases[r].buyer) && l.purchases[r].post == Some(post.id) {
      assert BoughtPost(l.orders[r], viewer, post.id);
    }
  }

  lemma PaidIffMediaAccessible(l: Ledger, viewer: Id, owner: Id, media: Id, now: Instant)
    requires Inv(l) && viewer != owner
    ensures IsEntitledToMedia(l, Some(viewer), owner, PayPerView, media, now)
       <==> exists r :: r in l.orders && BoughtMedia(l.orders[r], viewer, media)
  {
    hide MoneyConserved, SubsMatchOrders, OnePurchasePerPost, OrdersOk;
    if r :| r in l.orders && BoughtMedia(l.orders[r], viewer, media) {
      assert r in l.purchases && l.purchases[r] == PurchaseFor(l.orders[r].contract);
    }
    if r :| r in l.purchases && Some(viewer) == Some(l.purchases[r].buyer) && l.purchases[r].media == Some(media) {
      assert BoughtMedia(l.orders[r], viewer, media);
    }
  }

  /** A live subscription was paid for, and is live exactly until its period end. */
  lemma SubscribersHavePaid(l: Ledger, viewer: Id, creator: Id, now: Instant)
    requires Inv(l)
    ensures HasLiveSub(l, Some(viewer), creator, now) <==>
      (viewer, creator) in l.subs && l.subs[(viewer, creator)].periodEnd > now
    ensures HasLiveSub(l, Some(viewer), creator, now) ==>
      exists r :: r in l.orders && PaysFor(l.orders[r], (viewer, creator))
  {
    hide MoneyConserved, OnePurchasePerPost, OrdersOk, PurchasesOf, TipsOf;
    if (viewer, creator) in l.subs {
      var k := (viewer, creator);
      assert l.subs[k].status == Active && exists r :: r in l.orders && PaysFor(l.orders[r], k);
    }
  }

  /** The post check, the media check and the home feed's author filter decide alike. */
  lemma OneLivenessTest(l: Ledger, viewer: Id, creator: Id, item: Id, now: Instant)
    requires viewer != creator
    ensures IsEntitledToPost(l, Some(viewer), PostGate(item, creator, Subscribers), now)
       <==> IsEntitledToMedia(l, Some(viewer), creator, Subscribers, item, now)
    ensures creator in HomeFeedAuthors(l, viewer, now)
       <==> IsEntitledToPost(l, Some(viewer), PostGate(item, creator, Subscribers), now)
  {
    var k := (viewer, creator);
    assert HasLiveSub(l, Some(viewer), creator, now) <==> k in SubscriptionsToOwner(l, Some(viewer), creator, now);
    assert SubscriptionsToOwner(l, Some(viewer), creator, now) <= {k};
  }

  /**
   Paid time is honoured in every concurrent run: from any subscription grant in the commit log, the
   subscriber passes the check at every instant of the 28, 89 or 365 days that the month, quarter or year bought
   lasts at least, whatever else happened since.
   */
  lemma PaidTimeIsHonoured(w0: World, actions: seq<Action>, i: nat, post: PostGate, viewer: Id, now: Instant)
    requires WorldInv(w0) && w0.log == [] && i < |Run(w0, actions).log|
    requires post.access == Subscribers
    requires GrantFor(Replay(w0.db, Run(w0, actions).log[..i]), Run(w0, actions).log[i], (viewer, post.author))
    ensures var w := Run(w0, actions);
            PaidAt(Replay(w0.db, w.log[..i]), w.log[i], now) ==> IsEntitledToPost(w.db, Some(viewer), post, now)
  {
    hide Inv, Run, Lands, Replay, PaidAt, GrantFor, LastsFromGrant;
    var w, key := Run(w0, actions), (viewer, post.author);
    Serialisable(w0, actions);
    GrantedTimeLasts(w0.db, w.log, i, key);
    if PaidAt(Replay(w0.db, w.log[..i]), w.log[i], now) {
      PaidBeforeEnd(Replay(w0.db, w.log[..i]), w.log[i], w.db.subs[key].periodEnd, now);
    }
    assert key in w.db.subs && w.db.subs[key].status == Active;
  }
}
