/**
 Likes, comments and the counters that cache them: the service methods, and every interleaving of the
 statements of their transactions under row and key locks held to commit.
 */
module Engagement {
  import opened Wrappers

  /** The columns of a Post row that matter here. */
  datatype PostRow = PostRow(visible: bool, likeCount: int, commentCount: int)

  /** Post rows, Like rows by their key (user, post), and the post of each Comment row. */
  datatype Board = Board(posts: map<Id, PostRow>, likes: set<(Id, Id)>, comments: map<Id, Id>)

  function LikesOf(likes: set<(Id, Id)>, post: Id): set<(Id, Id)> { set l | l in likes && l.1 == post }

  function CommentsOf(comments: map<Id, Id>, post: Id): set<Id> { set c | c in comments && comments[c] == post }

  /** Each counter is the number of rows it stands for. */
  predicate CountsOk(b: Board)
  {
    forall p :: p in b.posts ==>
      b.posts[p].likeCount == |LikesOf(b.likes, p)| && b.posts[p].commentCount == |CommentsOf(b.comments, p)|
  }

  /** What one transaction of the service changes. */
  datatype Work = AddLike(user: Id, post: Id) | DropLike(user: Id, post: Id) | AddComment(comment: Id, post: Id)

  /** There is something to do: otherwise the first statement changes no row and the counter is left alone. */
  predicate Changes(b: Board, w: Work)
  {
    match w
    case AddLike(user, post) => (user, post) !in b.likes
    case DropLike(user, post) => (user, post) in b.likes
    case AddComment(comment, _) => comment !in b.comments
  }

  /** The counter's value after the second statement. */
  function Counted(row: PostRow, w: Work): int
  {
    match w
    case AddLike(_, _) => row.likeCount + 1
    case DropLike(_, _) => row.likeCount - 1
    case AddComment(_, _) => row.commentCount + 1
  }

  /** Both writes of the transaction. */
  function Apply(b: Board, w: Work, count: int): Board
    requires w.post in b.posts
  {
    match w
    case AddLike(user, post) =>
      b.(likes := b.likes + {(user, post)}, posts := b.posts[post := b.posts[post].(likeCount := count)])
    case DropLike(user, post) =>
      b.(likes := b.likes - {(user, post)}, posts := b.posts[post := b.posts[post].(likeCount := count)])
    case AddComment(comment, post) =>
      b.(comments := b.comments[comment := post], posts := b.posts[post := b.posts[post].(commentCount := count)])
  }

  /** A whole transaction at once. */
  function Perform(b: Board, w: Work): Board
  {
    if w.post in b.posts && Changes(b, w) then Apply(b, w, Counted(b.posts[w.post], w)) else b
  }

  lemma LikesMove(likes: set<(Id, Id)>, user: Id, post: Id, p: Id)
    ensures (user, post) !in likes ==>
      |LikesOf(likes + {(user, post)}, p)| == |LikesOf(likes, p)| + (if p == post then 1 else 0)
    ensures (user, post) in likes ==>
      |LikesOf(likes - {(user, post)}, p)| == |LikesOf(likes, p)| - (if p == post then 1 else 0)
  {
    var of, one := LikesOf(likes, p), {(user, post)};
    assert LikesOf(likes + one, p) == if p == post then of + one else of;
    assert LikesOf(likes - one, p) == if p == post then of - one else of;
  }

  lemma CommentsMove(comments: map<Id, Id>, comment: Id, post: Id, p: Id)
    requires comment !in comments
    ensures |CommentsOf(comments[comment := post], p)| == |CommentsOf(comments, p)| + (if p == post then 1 else 0)
  {
    var of := CommentsOf(comments, p);
    assert CommentsOf(comments[comment := post], p) == if p == post then of + {comment} else of;
  }

  /** What a transaction changes: its own row, and by one the counter of its post, and nothing else. */
  lemma PerformChanges(b: Board, w: Work)
    ensures var b' := Perform(b, w);
            && b'.posts.Keys == b.posts.Keys
            && (forall p :: p in b.posts && p != w.post ==> b'.posts[p] == b.posts[p])
            && (w.post !in b.posts ==> b' == b)
            && (w.post in b.posts ==>
                  var was, row := b.posts[w.post], b'.posts[w.post];
                  && row.visible == was.visible
                  && (match w
                      case AddLike(user, post) =>
                        && b'.likes == b.likes + {(user, post)} && b'.comments == b.comments
                        && row.likeCount == was.likeCount + (if (user, post) in b.likes then 0 else 1)
                        && row.commentCount == was.commentCount
                      case DropLike(user, post) =>
                        && b'.likes == b.likes - {(user, post)} && b'.comments == b.comments
                        && row.likeCount == was.likeCount - (if (user, post) in b.likes then 1 else 0)
                        && row.commentCount == was.commentCount
                      case AddComment(comment, post) =>
                        && b'.likes == b.likes && comment in b'.comments
                        && (comment !in b.comments ==> b'.comments == b.comments[comment := post])
                        && row.likeCount == was.likeCount
                        && row.commentCount == was.commentCount + (if comment in b.comments then 0 else 1)))
  {
  }

  /** The rows and the counter of a transaction move together. */
  lemma PerformKeepsCounts(b: Board, w: Work)
    requires CountsOk(b)
    ensures CountsOk(Perform(b, w))
  {
    if w.post in b.posts && Changes(b, w) {
      var b' := Perform(b, w);
      forall p | p in b'.posts
        ensures b'.posts[p].likeCount == |LikesOf(b'.likes, p)|
          && b'.posts[p].commentCount == |CommentsOf(b'.comments, p)|
      {
        hide LikesOf, CommentsOf;
        match w
        case AddLike(user, post) => LikesMove(b.likes, user, post, p);
        case DropLike(user, post) => LikesMove(b.likes, user, post, p);
        case AddComment(comment, post) => CommentsMove(b.comments, comment, post, p);
      }
    }
  }

  // ------------------------------------------------------------ the service

  datatype Reply = Done | NotFound | Forbidden

  class PostsService {
    var posts: map<Id, PostRow>
    var likes: set<(Id, Id)>
    var comments: map<Id, Id>

    ghost function Tables(): Board
      reads this
    {
      Board(posts, likes, comments)
    }

    ghost predicate Valid()
      reads this
    {
      CountsOk(Tables()) && forall l :: l in likes ==> l.1 in posts
    }

    constructor ()
      ensures Valid() && Tables() == Board(map[], {}, map[])
    {
      posts, likes, comments := map[], {}, map[];
    }

    method Like(user: Id, post: Id) returns (r: Reply)
      requires Valid()
      modifies this
      ensures Valid()
      ensures r == if post in old(posts) && old(posts)[post].visible then Done else NotFound
      ensures Tables() == if r == Done then Perform(old(Tables()), AddLike(user, post)) else old(Tables())
      ensures likes == if r == Done then old(likes) + {(user, post)} else old(likes)
      ensures comments == old(comments)
    {
      if post !in posts || !posts[post].visible { return NotFound; }
      PerformKeepsCounts(Tables(), AddLike(user, post));
      if (user, post) !in likes {
        likes := likes + {(user, post)};
        posts := posts[post := posts[post].(likeCount := posts[post].likeCount + 1)];
      }
      return Done;
    }

    /** Takes a like back; a post need not be visible for that. */
    method Unlike(user: Id, post: Id)
      requires Valid()
      modifies this
      ensures Valid()
      ensures Tables() == Perform(old(Tables()), DropLike(user, post))
      ensures likes == old(likes) - {(user, post)} && comments == old(comments)
    {
      PerformKeepsCounts(Tables(), DropLike(user, post));
      if (user, post) in likes {
        likes := likes - {(user, post)};
        posts := posts[post := posts[post].(likeCount := posts[post].likeCount - 1)];
      }
    }

    /** `entitled` is the access check's answer for this user and post; `id` is the new row's uuid. */
    method Comment(post: Id, entitled: bool, id: Id) returns (r: Reply)
      requires Valid() && id !in comments
      modifies this
      ensures Valid()
      ensures r == if post !in old(posts) || !old(posts)[post].visible then NotFound
                   else if !entitled then Forbidden else Done
      ensures Tables() == if r == Done then Perform(old(Tables()), AddComment(id, post)) else old(Tables())
      ensures comments == if r == Done then old(comments)[id := post] else old(comments)
      ensures likes == old(likes)
    {
      if post !in posts || !posts[post].visible { return NotFound; }
      if !entitled { return Forbidden; }
      PerformKeepsCounts(Tables(), AddComment(id, post));
      comments := comments[id := post];
      posts := posts[post := posts[post].(commentCount := posts[post].commentCount + 1)];
      return Done;
    }
  }

  // ------------------------------------------------------------ interleaved transactions

  /** Where a transaction stands; its writes stay its own until the commit. */
  datatype Stage = Begun | RowWritten | CountWritten(count: int) | Ended

  datatype Tx = Tx(work: Work, at: Stage)

  datatype World = World(board: Board, txs: map<Id, Tx>)

  datatype Lock = LikeKey(user: Id, post: Id) | CommentKey(comment: Id) | PostKey(post: Id)

  function RowLock(w: Work): Lock { if w.AddComment? then CommentKey(w.comment) else LikeKey(w.user, w.post) }

  function Locks(t: Tx): set<Lock>
  {
    match t.at
    case Begun => {}
    case RowWritten => {RowLock(t.work)}
    case CountWritten(_) => {RowLock(t.work), PostKey(t.work.post)}
    case Ended => {}
  }

  function Wants(t: Tx): set<Lock>
  {
    match t.at
    case Begun => {RowLock(t.work)}
    case RowWritten => {PostKey(t.work.post)}
    case _ => {}
  }

  predicate Free(w: World, p: Id) requires p in w.txs
  {
    forall q :: q in w.txs && q != p ==> Locks(w.txs[q]) !! Wants(w.txs[p])
  }

  function To(w: World, p: Id, at: Stage): World
    requires p in w.txs
  {
    w.(txs := w.txs[p := w.txs[p].(at := at)])
  }

  /** The next statement of a transaction, or nothing while it waits for a lock. */
  function AdvanceTx(w: World, p: Id): World
    requires p in w.txs
  {
    var t := w.txs[p];
    if !Free(w, p) then w
    else match t.at
      case Begun => To(w, p, if Changes(w.board, t.work) && t.work.post in w.board.posts then RowWritten else Ended)
      case RowWritten =>
        if t.work.post in w.board.posts then To(w, p, CountWritten(Counted(w.board.posts[t.work.post], t.work)))
          else To(w, p, Ended)
      case CountWritten(count) =>
        if t.work.post in w.board.posts then To(w.(board := Apply(w.board, t.work, count)), p, Ended)
          else To(w, p, Ended)
      case Ended => w
  }

  datatype Action = Begin(p: Id, work: Work) | Advance(p: Id) | Rollback(p: Id) | Publish(post: Id) | Hide(post: Id)

  function Step(w: World, a: Action): World
  {
    match a
    case Begin(p, work) => if p in w.txs then w else w.(txs := w.txs[p := Tx(work, Begun)])
    case Advance(p) => if p in w.txs then AdvanceTx(w, p) else w
    case Rollback(p) => if p in w.txs then To(w, p, Ended) else w
    case Publish(post) =>
      if post in w.board.posts || CommentsOf(w.board.comments, post) != {} || LikesOf(w.board.likes, post) != {} then w
      else w.(board := w.board.(posts := w.board.posts[post := PostRow(true, 0, 0)]))
    case Hide(post) =>
      if post !in w.board.posts then w
      else w.(board := w.board.(posts := w.board.posts[post := w.board.posts[post].(visible := false)]))
  }

  function Run(w: World, actions: seq<Action>): World
  {
    if actions == [] then w else Step(Run(w, actions[..|actions| - 1]), actions[|actions| - 1])
  }

  /** A transaction that nothing interrupts: its statements and the commit. */
  function Uninterrupted(w: World, p: Id, work: Work): World
  {
    Step(Step(Step(Step(w, Begin(p, work)), Advance(p)), Advance(p)), Advance(p))
  }

  /** While no other transaction holds a lock, the statements of one do what the whole transaction does. */
  lemma UninterruptedIsPerform(w: World, p: Id, work: Work)
    requires p !in w.txs && forall q :: q in w.txs ==> w.txs[q].at == Begun || w.txs[q].at == Ended
    ensures Uninterrupted(w, p, work).board == Perform(w.board, work)
    ensures p in Uninterrupted(w, p, work).txs && Uninterrupted(w, p, work).txs[p].at == Ended
  {
    var w1 := Step(w, Begin(p, work));
    OthersHoldNothing(w1, p);
    var w2 := Step(w1, Advance(p));
    OthersHoldNothing(w2, p);
    var w3 := Step(w2, Advance(p));
    OthersHoldNothing(w3, p);
    hide Free, Changes, Counted, Apply;
  }

  lemma OthersHoldNothing(w: World, p: Id)
    requires p in w.txs && forall q :: q in w.txs && q != p ==> w.txs[q].at == Begun || w.txs[q].at == Ended
    ensures Free(w, p)
  {
  }

  /** What a transaction has prepared is what it would prepare on the board as it is. */
  predicate InStep(b: Board, t: Tx)
  {
    match t.at
    case RowWritten => t.work.post in b.posts && Changes(b, t.work)
    case CountWritten(count) => t.work.post in b.posts && Changes(b, t.work)
      && count == Counted(b.posts[t.work.post], t.work)
    case _ => true
  }

  ghost predicate WorldInv(w: World)
  {
    && CountsOk(w.board)
    && (forall p, q :: p in w.txs && q in w.txs && p != q ==> Locks(w.txs[p]) !! Locks(w.txs[q]))
    && (forall p :: p in w.txs ==> InStep(w.board, w.txs[p]))
  }

  /** A commit is the whole transaction done at once, and disturbs no other. */
  lemma CommitIsPerform(w: World, p: Id)
    requires WorldInv(w) && p in w.txs && w.txs[p].at.CountWritten?
    ensures w.txs[p].work.post in w.board.posts
    ensures Apply(w.board, w.txs[p].work, w.txs[p].at.count) == Perform(w.board, w.txs[p].work)
    ensures forall q :: q in w.txs && q != p ==> InStep(Perform(w.board, w.txs[p].work), w.txs[q])
  {
    assert InStep(w.board, w.txs[p]);
    hide CountsOk;
    forall q | q in w.txs && q != p ensures InStep(Perform(w.board, w.txs[p].work), w.txs[q]) {
      assert Locks(w.txs[p]) !! Locks(w.txs[q]) && InStep(w.board, w.txs[q]);
      Undisturbed(w.board, w.txs[p], w.txs[q]);
    }
  }

  lemma Undisturbed(b: Board, t: Tx, other: Tx)
    requires t.at.CountWritten? && InStep(b, t) && InStep(b, other) && Locks(t) !! Locks(other)
    ensures InStep(Perform(b, t.work), other)
  {
    assert RowLock(t.work) in Locks(t) && PostKey(t.work.post) in Locks(t);
    if other.at.RowWritten? || other.at.CountWritten? {
      assert RowLock(other.work) in Locks(other);
    }
    if other.at.CountWritten? {
      assert PostKey(other.work.post) in Locks(other);
    }
  }

  lemma StepKeepsInv(w: World, a: Action)
    requires WorldInv(w)
    ensures WorldInv(Step(w, a))
  {
    if a.Publish? || a.Hide? {
      hide WorldInv, Step;
      BoardEditsKeepInv(w, a);
    } else if a.Advance? && a.p in w.txs && w.txs[a.p].at.CountWritten? {
      CommitKeepsInv(w, a.p);
    } else {
      NewStageInStep(w, a);
      hide CountsOk, InStep, Changes;
    }
  }

  lemma CommitKeepsInv(w: World, p: Id)
    requires WorldInv(w) && p in w.txs && w.txs[p].at.CountWritten?
    ensures WorldInv(AdvanceTx(w, p))
  {
    assert InStep(w.board, w.txs[p]);
    assert forall b :: InStep(b, w.txs[p].(at := Ended));
    hide CountsOk, InStep, Perform, Apply, Free, Changes;
    CommitIsPerform(w, p);
    PerformKeepsCounts(w.board, w.txs[p].work);
  }

  lemma NewStageInStep(w: World, a: Action)
    requires WorldInv(w) && !a.Publish? && !a.Hide?
    ensures forall p :: p in Step(w, a).txs && (p !in w.txs || Step(w, a).txs[p] != w.txs[p]) ==>
      InStep(Step(w, a).board, Step(w, a).txs[p])
  {
    hide CountsOk;
  }

  lemma BoardEditsKeepInv(w: World, a: Action)
    requires WorldInv(w) && (a.Publish? || a.Hide?)
    ensures WorldInv(Step(w, a))
  {
    forall p | p in w.txs ensures InStep(Step(w, a).board, w.txs[p]) {
      assert InStep(w.board, w.txs[p]);
      hide LikesOf, CommentsOf, CountsOk, Locks;
    }
    BoardEditsKeepCounts(w, a);
    hide CountsOk, InStep, Locks, LikesOf, CommentsOf;
  }

  lemma BoardEditsKeepCounts(w: World, a: Action)
    requires CountsOk(w.board) && (a.Publish? || a.Hide?)
    ensures CountsOk(Step(w, a).board)
  {
    hide LikesOf, CommentsOf;
  }

  /** Over every interleaving the counters are the numbers of rows, and never negative. */
  lemma {:induction false} CountersAgreeAlways(w: World, actions: seq<Action>)
    requires WorldInv(w)
    ensures WorldInv(Run(w, actions))
    ensures var b := Run(w, actions).board;
            forall p :: p in b.posts ==>
              b.posts[p].likeCount == |LikesOf(b.likes, p)| >= 0
                && b.posts[p].commentCount == |CommentsOf(b.comments, p)| >= 0
    decreases |actions|
  {
    hide Step;
    if actions != [] {
      CountersAgreeAlways(w, actions[..|actions| - 1]);
      StepKeepsInv(Run(w, actions[..|actions| - 1]), actions[|actions| - 1]);
    }
  }
}
