/**
 * What the store's operations promise together: the consistency rules of
 * Store.Valid hold for the seed data and survive every mutation, follow and
 * unfollow are idempotent and undo each other, like and unlike undo each
 * other on the counter, and the behaviour of the seed data and of a few
 * edge cases (an empty username, a missing like count).
 */
module StoreLaws {
  import opened Wrappers
  import opened Records
  import opened Seqs
  import opened Store

  // ------------------------------------------------------------------
  // Edge counting

  lemma {:induction false} DegreeSnoc(edges: seq<Edge>, e: Edge, id: nat, d: Direction)
    ensures Degree(edges + [e], id, d) == Degree(edges, id, d) + (if Endpoint(e, d) == id then 1 else 0)
  {
    if |edges| > 0 {
      assert (edges + [e])[1..] == edges[1..] + [e];
      DegreeSnoc(edges[1..], e, id, d);
    }
  }

  lemma {:induction false} DegreeConcat(a: seq<Edge>, b: seq<Edge>, id: nat, d: Direction)
    ensures Degree(a + b, id, d) == Degree(a, id, d) + Degree(b, id, d)
  {
    if |a| > 0 {
      assert (a + b)[1..] == a[1..] + b;
      DegreeConcat(a[1..], b, id, d);
    } else {
      assert a + b == b;
    }
  }

  lemma DegreeRemoveAt(edges: seq<Edge>, k: nat, id: nat, d: Direction)
    requires k < |edges|
    ensures Degree(RemoveAt(edges, k), id, d) + (if Endpoint(edges[k], d) == id then 1 else 0)
            == Degree(edges, id, d)
  {
    assert edges == edges[..k] + [edges[k]] + edges[k + 1..];
    DegreeConcat(edges[..k] + [edges[k]], edges[k + 1..], id, d);
    DegreeConcat(edges[..k], [edges[k]], id, d);
    DegreeConcat(edges[..k], edges[k + 1..], id, d);
  }

  lemma {:induction false} DegreeZero(edges: seq<Edge>, id: nat, d: Direction)
    requires forall k :: 0 <= k < |edges| ==> Endpoint(edges[k], d) != id
    ensures Degree(edges, id, d) == 0
  {
    if |edges| > 0 {
      DegreeZero(edges[1..], id, d);
    }
  }

  // ------------------------------------------------------------------
  // Lookups under the id rule

  lemma UserIndexIsPosition(db: Db, id: nat)
    requires IdsArePositions(db)
    ensures UserIndex(db.users, id) == if 1 <= id <= |db.users| then Some(id - 1) else None
  {
    var r := UserIndex(db.users, id);
    if 1 <= id <= |db.users| {
      assert db.users[id - 1].id == id;
    }
  }

  lemma PostIndexIsPosition(db: Db, id: nat)
    requires IdsArePositions(db)
    ensures PostIndex(db.posts, id) == if 1 <= id <= |db.posts| then Some(id - 1) else None
  {
    if 1 <= id <= |db.posts| {
      assert db.posts[id - 1].id == id;
    }
  }

  /** Changing anything but the ids leaves every id lookup as it was. */
  lemma UserIndexSameIds(u1: seq<User>, u2: seq<User>, id: nat)
    requires |u1| == |u2| && forall i :: 0 <= i < |u1| ==> u1[i].id == u2[i].id
    ensures UserIndex(u1, id) == UserIndex(u2, id)
  {
    var r1, r2 := UserIndex(u1, id), UserIndex(u2, id);
    if r1.Some? && r2.Some? {
      assert u2[r1.value].id == id && u1[r2.value].id == id;
    }
  }

  lemma PostIndexSameIds(p1: seq<Post>, p2: seq<Post>, id: nat)
    requires |p1| == |p2| && forall i :: 0 <= i < |p1| ==> p1[i].id == p2[i].id
    ensures PostIndex(p1, id) == PostIndex(p2, id)
  {
    var r1, r2 := PostIndex(p1, id), PostIndex(p2, id);
    if r1.Some? && r2.Some? {
      assert p2[r1.value].id == id && p1[r2.value].id == id;
    }
  }

  lemma ThreadEmpty(comments: seq<Comment>, postId: nat)
    requires forall k :: 0 <= k < |comments| ==> comments[k].postId != postId
    ensures Thread(comments, postId) == []
  {
    FilterNone(comments, OnPost(postId));
  }

  lemma ThreadSnoc(comments: seq<Comment>, c: Comment, postId: nat)
    ensures CommentIds(Thread(comments + [c], postId))
            == CommentIds(Thread(comments, postId)) + (if c.postId == postId then [c.id] else [])
  {
    FilterSnoc(comments, c, OnPost(postId));
    var t := Thread(comments, postId);
    if c.postId == postId {
      assert CommentIds(t + [c]) == CommentIds(t) + [c.id];
    }
  }

  // ------------------------------------------------------------------
  // The seed data

  lemma SeedCounters()
    ensures CountersAgree(SeedUsers, SeedEdges)
  {
    assert Degree(SeedEdges, 1, Incoming) == 2 && Degree(SeedEdges, 1, Outgoing) == 1;
    assert Degree(SeedEdges, 2, Incoming) == 1 && Degree(SeedEdges, 2, Outgoing) == 2;
    assert Degree(SeedEdges, 3, Incoming) == 1 && Degree(SeedEdges, 3, Outgoing) == 1;
  }

  /** Growing a prefix by one comment grows its thread's ids by at most that
      comment's id. */
  lemma ThreadPrefixStep(c: seq<Comment>, k: nat, postId: nat)
    requires k < |c|
    ensures CommentIds(Thread(c[..k + 1], postId))
            == CommentIds(Thread(c[..k], postId)) + (if c[k].postId == postId then [c[k].id] else [])
  {
    assert c[..k] + [c[k]] == c[..k + 1];
    ThreadSnoc(c[..k], c[k], postId);
  }

  /** The comment ids each seed post lists, post 1 first. */
  const SeedThreads: seq<seq<nat>> := [[1, 2], [3], [4], [], [5]]

  /** Five comments with ids 1..5 on posts 1, 1, 2, 3 and 5 form exactly
      the threads `SeedThreads`. */
  lemma FiveThreads(c: seq<Comment>, postId: nat)
    requires |c| == 5 && forall k :: 0 <= k < 5 ==> c[k].id == k + 1
    requires c[0].postId == 1 && c[1].postId == 1 && c[2].postId == 2 && c[3].postId == 3 && c[4].postId == 5
    requires 1 <= postId <= 5
    ensures CommentIds(Thread(c, postId)) == SeedThreads[postId - 1]
  {
    ThreadEmpty(c[..0], postId);
    ThreadPrefixStep(c, 0, postId);
    ThreadPrefixStep(c, 1, postId);
    ThreadPrefixStep(c, 2, postId);
    ThreadPrefixStep(c, 3, postId);
    ThreadPrefixStep(c, 4, postId);
    assert c[..5] == c;
    var ids := CommentIds(Thread(c, postId));
    if postId == 1 {
      assert ids == [] + [1] + [2] + [] + [] + [];
    } else if postId == 2 {
      assert ids == [] + [] + [] + [3] + [] + [];
    } else if postId == 3 {
      assert ids == [] + [] + [] + [] + [4] + [];
    } else if postId == 4 {
      assert ids == [] + [] + [] + [] + [] + [];
    } else {
      assert ids == [] + [] + [] + [] + [] + [5];
    }
  }

  lemma SeedThread(postId: nat)
    requires 1 <= postId <= 5
    ensures CommentIds(Thread(SeedComments, postId)) == SeedPosts[postId - 1].comments
  {
    var c := SeedComments;
    assert c[0].postId == 1 && c[1].postId == 1 && c[2].postId == 2 && c[3].postId == 3 && c[4].postId == 5;
    FiveThreads(c, postId);
    SeedPostThreads();
  }

  lemma SeedPostThreads()
    ensures |SeedPosts| == 5 && forall i :: 0 <= i < 5 ==> SeedPosts[i].comments == SeedThreads[i]
  {
  }

  lemma SeedCommentLists()
    ensures CommentListsAgree(SeedPosts, SeedComments)
  {
    forall i | 0 <= i < |SeedPosts| ensures SeedPosts[i].comments == CommentIds(Thread(SeedComments, i + 1)) {
      SeedThread(i + 1);
    }
  }

  /** The seed tables satisfy every consistency rule, and no two seed
      accounts share a username or an email. */
  lemma SeedValid(session: Option<Profile>)
    ensures Valid(Seed(session))
    ensures DistinctHandles(Seed(session).users)
  {
    SeedCounters();
    SeedCommentLists();
    SeedDistinct();
    SeedShape();
  }

  lemma SeedShape()
    ensures UserIdsArePositions(SeedUsers) && PostIdsArePositions(SeedPosts)
    ensures CommentIdsArePositions(SeedComments)
    ensures EdgesJoinUsers(SeedEdges, |SeedUsers|) && NoDuplicateEdges(SeedEdges)
    ensures CommentsJoinPosts(SeedComments, |SeedPosts|)
  {
  }

  lemma SeedDistinct()
    ensures DistinctHandles(SeedUsers)
  {
    var us := SeedUsers;
    assert us[0].username[1] != us[1].username[1] && us[0].username[0] != us[2].username[0];
    assert us[1].username[0] != us[2].username[0];
    assert us[0].email[1] != us[1].email[1] && us[0].email[0] != us[2].email[0];
    assert us[1].email[0] != us[2].email[0];
  }

  // ------------------------------------------------------------------
  // Invariant preservation, table by table

  /** A new account with zero counters, appended after `users`, agrees with
      edges that only join the existing accounts. */
  lemma AppendUserKeepsCounters(users: seq<User>, edges: seq<Edge>, u: User)
    requires CountersAgree(users, edges) && EdgesJoinUsers(edges, |users|)
    requires u.followerCount == 0 && u.followingCount == 0
    ensures CountersAgree(users + [u], edges)
  {
    DegreeZero(edges, |users| + 1, Incoming);
    DegreeZero(edges, |users| + 1, Outgoing);
  }

  lemma RegisterKeepsValid(db: Db, username: string, email: string, fullname: string, password: string)
    requires Valid(db)
    ensures Valid(Register(db, username, email, fullname, password).db)
    ensures DistinctHandles(db.users) ==> DistinctHandles(Register(db, username, email, fullname, password).db.users)
  {
    var r := Register(db, username, email, fullname, password);
    if r.reply.Success? {
      var u := r.db.users[|db.users|];
      assert r.db.users == db.users + [u];
      AppendUserKeepsCounters(db.users, db.edges, u);
    }
  }

  /** One new edge and the matching counter bumps keep the counters right. */
  lemma BumpKeepsCounters(users: seq<User>, edges: seq<Edge>, a: nat, b: nat)
    requires CountersAgree(users, edges)
    requires 1 <= a <= |users| && 1 <= b <= |users|
    ensures CountersAgree(BumpCounters(users, a - 1, b - 1), edges + [Edge(a, b)])
  {
    var users' := BumpCounters(users, a - 1, b - 1);
    forall i | 0 <= i < |users|
      ensures users'[i].followerCount == Degree(edges + [Edge(a, b)], i + 1, Incoming)
      ensures users'[i].followingCount == Degree(edges + [Edge(a, b)], i + 1, Outgoing)
    {
      DegreeSnoc(edges, Edge(a, b), i + 1, Incoming);
      DegreeSnoc(edges, Edge(a, b), i + 1, Outgoing);
    }
  }

  /** An edge between two existing accounts that is not yet stored keeps the
      edge table well formed. */
  lemma AppendKeepsEdgesWellFormed(edges: seq<Edge>, n: nat, a: nat, b: nat)
    requires EdgesJoinUsers(edges, n) && NoDuplicateEdges(edges) && !HasEdge(edges, a, b)
    requires 1 <= a <= n && 1 <= b <= n
    ensures EdgesJoinUsers(edges + [Edge(a, b)], n) && NoDuplicateEdges(edges + [Edge(a, b)])
  {
    var es := edges + [Edge(a, b)];
    assert forall i :: 0 <= i < |edges| ==> es[i] == edges[i] && edges[i] in edges;
  }

  lemma FollowKeepsValid(db: Db, a: nat, b: nat)
    requires Valid(db)
    ensures Valid(FollowUser(db, a, b).db)
  {
    var r := FollowUser(db, a, b);
    if r.reply.Success? && !HasEdge(db.edges, a, b) {
      UserIndexIsPosition(db, a);
      UserIndexIsPosition(db, b);
      var users' := BumpCounters(db.users, a - 1, b - 1);
      assert r.db == db.(users := users', edges := db.edges + [Edge(a, b)]);
      BumpKeepsCounters(db.users, db.edges, a, b);
      AppendKeepsEdgesWellFormed(db.edges, |db.users|, a, b);
      assert UserIdsArePositions(users');
    }
  }

  /** Splicing out an edge and the matching clamped decrements keep the
      counters right. */
  lemma DropKeepsCounters(users: seq<User>, edges: seq<Edge>, k: nat)
    requires CountersAgree(users, edges) && k < |edges|
    requires 1 <= edges[k].follower <= |users| && 1 <= edges[k].following <= |users|
    ensures CountersAgree(DropCounters(users, edges[k].follower - 1, edges[k].following - 1), RemoveAt(edges, k))
  {
    var a, b := edges[k].follower, edges[k].following;
    var users' := DropCounters(users, a - 1, b - 1);
    forall i | 0 <= i < |users|
      ensures users'[i].followerCount == Degree(RemoveAt(edges, k), i + 1, Incoming)
      ensures users'[i].followingCount == Degree(RemoveAt(edges, k), i + 1, Outgoing)
    {
      DegreeRemoveAt(edges, k, i + 1, Incoming);
      DegreeRemoveAt(edges, k, i + 1, Outgoing);
    }
  }

  lemma RemoveKeepsEdgesWellFormed(edges: seq<Edge>, n: nat, k: nat)
    requires EdgesJoinUsers(edges, n) && NoDuplicateEdges(edges) && k < |edges|
    ensures EdgesJoinUsers(RemoveAt(edges, k), n) && NoDuplicateEdges(RemoveAt(edges, k))
    ensures edges[k] !in RemoveAt(edges, k)
  {
    var es := RemoveAt(edges, k);
    assert forall i :: 0 <= i < |es| ==> es[i] == if i < k then edges[i] else edges[i + 1];
  }

  /** Dropping any stored edge, with the clamped counter updates, keeps
      every table rule. */
  lemma DropEdgeKeepsValid(db: Db, k: nat)
    requires Valid(db) && k < |db.edges|
    ensures k < |db.edges| && 1 <= db.edges[k].follower <= |db.users| && 1 <= db.edges[k].following <= |db.users|
    ensures Valid(db.(users := DropCounters(db.users, db.edges[k].follower - 1, db.edges[k].following - 1),
                      edges := RemoveAt(db.edges, k)))
  {
    var users' := DropCounters(db.users, db.edges[k].follower - 1, db.edges[k].following - 1);
    DropKeepsCounters(db.users, db.edges, k);
    RemoveKeepsEdgesWellFormed(db.edges, |db.users|, k);
    assert UserIdsArePositions(users');
  }

  /** Under the id rule, an unfollow that finds its edge at k removes that
      edge and drops the counters of the accounts at positions a - 1 and
      b - 1. */
  lemma UnfollowRemovesEdge(db: Db, a: nat, b: nat, k: nat)
    requires IdsArePositions(db) && HasEdge(db.edges, a, b)
    requires UnfollowUser(db, a, b).reply.Success?
    requires EdgeIndex(db.edges, a, b) == Some(k)
    ensures 1 <= a && 1 <= b && db.edges[k] == Edge(a, b)
    ensures UnfollowUser(db, a, b).db
      == db.(users := DropCounters(db.users, a - 1, b - 1), edges := RemoveAt(db.edges, k))
  {
    UserIndexIsPosition(db, a);
    UserIndexIsPosition(db, b);
  }

  /** An unfollow that finds its edge keeps every table rule. */
  lemma UnfollowOnEdgeKeepsValid(db: Db, a: nat, b: nat)
    requires Valid(db) && HasEdge(db.edges, a, b)
    requires UnfollowUser(db, a, b).reply.Success?
    ensures Valid(UnfollowUser(db, a, b).db)
  {
    var k := EdgeIndex(db.edges, a, b).value;
    UnfollowRemovesEdge(db, a, b, k);
    DropEdgeKeepsValid(db, k);
  }

  lemma UnfollowKeepsValid(db: Db, a: nat, b: nat)
    requires Valid(db)
    ensures Valid(UnfollowUser(db, a, b).db)
  {
    var r := UnfollowUser(db, a, b);
    if r.reply.Success? && HasEdge(db.edges, a, b) {
      UnfollowOnEdgeKeepsValid(db, a, b);
    } else {
      assert r.db == db;
    }
  }

  lemma UpdateKeepsValid(db: Db, userId: nat, patch: ProfilePatch)
    requires Valid(db)
    ensures Valid(UpdateUserProfile(db, userId, patch).db)
  {
  }

  /** A rename to a non-empty value keeps usernames and emails unique. */
  lemma UpdateKeepsDistinct(db: Db, userId: nat, patch: ProfilePatch)
    requires Valid(db) && DistinctHandles(db.users)
    requires patch.username != Some("") && patch.email != Some("")
    ensures DistinctHandles(UpdateUserProfile(db, userId, patch).db.users)
  {
    var r := UpdateUserProfile(db, userId, patch);
    if r.reply.Success? {
      UserIndexIsPosition(db, userId);
      var i := userId - 1;
      var u := r.db.users[i];
      forall j | 0 <= j < |db.users| && j != i
        ensures u.username != db.users[j].username && u.email != db.users[j].email
      {
        assert db.users[j].id != userId;
      }
    }
  }

  lemma CreatePostKeepsValid(db: Db, userId: nat, image: string, caption: string, now: int)
    requires Valid(db)
    ensures Valid(CreatePost(db, userId, image, caption, now).db)
  {
    ThreadEmpty(db.comments, |db.posts| + 1);
  }

  /** Replacing a post by one with the same id and comment list keeps every
      table rule. */
  lemma ReplacePostKeepsValid(db: Db, i: nat, p: Post)
    requires Valid(db) && i < |db.posts| && p.id == db.posts[i].id && p.comments == db.posts[i].comments
    ensures Valid(db.(posts := db.posts[i := p]))
  {
  }

  lemma LikeKeepsValid(db: Db, userId: nat, postId: nat)
    requires Valid(db)
    ensures Valid(LikePost(db, userId, postId).db)
    ensures Valid(UnlikePost(db, userId, postId).db)
  {
    if KnownPost(db.posts, postId) {
      var i := PostIndex(db.posts, postId).value;
      ReplacePostKeepsValid(db, i, LikePost(db, userId, postId).db.posts[i]);
      assert LikePost(db, userId, postId).db == db.(posts := db.posts[i := LikePost(db, userId, postId).db.posts[i]]);
      ReplacePostKeepsValid(db, i, UnlikePost(db, userId, postId).db.posts[i]);
      assert UnlikePost(db, userId, postId).db == db.(posts := db.posts[i := UnlikePost(db, userId, postId).db.posts[i]]);
    }
  }

  /** Appending a comment to post i and its id to that post's list keeps
      every post's list in step with the comments. */
  lemma AppendCommentKeepsLists(posts: seq<Post>, comments: seq<Comment>, i: nat, c: Comment)
    requires CommentListsAgree(posts, comments) && i < |posts| && c.postId == i + 1
    ensures CommentListsAgree(posts[i := posts[i].(comments := posts[i].comments + [c.id])], comments + [c])
  {
    var posts' := posts[i := posts[i].(comments := posts[i].comments + [c.id])];
    forall j | 0 <= j < |posts'|
      ensures posts'[j].comments == CommentIds(Thread(comments + [c], j + 1))
    {
      ThreadSnoc(comments, c, j + 1);
    }
  }

  /** A comment with the next id on post i, with its id appended to that
      post's list, keeps every table rule. */
  lemma AppendCommentKeepsValid(db: Db, i: nat, c: Comment)
    requires Valid(db) && i < |db.posts| && c.postId == i + 1 && c.id == |db.comments| + 1
    ensures Valid(db.(posts := db.posts[i := db.posts[i].(comments := db.posts[i].comments + [c.id])],
                      comments := db.comments + [c]))
  {
    var posts' := db.posts[i := db.posts[i].(comments := db.posts[i].comments + [c.id])];
    var comments' := db.comments + [c];
    AppendCommentKeepsLists(db.posts, db.comments, i, c);
    assert PostIdsArePositions(posts');
    assert CommentIdsArePositions(comments') && CommentsJoinPosts(comments', |posts'|);
  }

  lemma AddCommentKeepsValid(db: Db, userId: nat, postId: nat, content: string, now: int)
    requires Valid(db)
    ensures Valid(AddComment(db, userId, postId, content, now).db)
  {
    var r := AddComment(db, userId, postId, content, now);
    if r.reply.Success? {
      PostIndexIsPosition(db, postId);
      AppendCommentKeepsValid(db, postId - 1, r.reply.value.comment);
    }
  }

  // ------------------------------------------------------------------
  // Follow and unfollow

  /** Following twice is the same as following once. */
  lemma FollowIdempotent(db: Db, a: nat, b: nat)
    ensures FollowUser(FollowUser(db, a, b).db, a, b) == FollowUser(db, a, b)
  {
    var r := FollowUser(db, a, b);
    if r.reply.Success? && !HasEdge(db.edges, a, b) {
      assert forall i :: 0 <= i < |db.users| ==> r.db.users[i].id == db.users[i].id;
      UserIndexSameIds(db.users, r.db.users, a);
      UserIndexSameIds(db.users, r.db.users, b);
      assert HasEdge(r.db.edges, a, b);
    }
  }

  /** Unfollowing twice is the same as unfollowing once, since no edge is stored twice. */
  lemma UnfollowIdempotent(db: Db, a: nat, b: nat)
    requires EdgesWellFormed(db)
    ensures UnfollowUser(UnfollowUser(db, a, b).db, a, b) == UnfollowUser(db, a, b)
  {
    var r := UnfollowUser(db, a, b);
    if r.reply.Success? && HasEdge(db.edges, a, b) {
      assert forall i :: 0 <= i < |db.users| ==> r.db.users[i].id == db.users[i].id;
      UserIndexSameIds(db.users, r.db.users, a);
      UserIndexSameIds(db.users, r.db.users, b);
      var k := EdgeIndex(db.edges, a, b).value;
      RemoveKeepsEdgesWellFormed(db.edges, |db.users|, k);
      assert !HasEdge(r.db.edges, a, b);
    }
  }

  lemma EdgeIndexOfAppended(edges: seq<Edge>, a: nat, b: nat)
    requires !HasEdge(edges, a, b)
    ensures EdgeIndex(edges + [Edge(a, b)], a, b) == Some(|edges|)
  {
    var es := edges + [Edge(a, b)];
    assert es[|edges|] == Edge(a, b);
    assert forall i :: 0 <= i < |edges| ==> es[i] == edges[i] && edges[i] in edges;
  }

  lemma DropUndoesBump(users: seq<User>, ci: nat, ti: nat)
    requires ci < |users| && ti < |users|
    ensures DropCounters(BumpCounters(users, ci, ti), ci, ti) == users
  {
    var back := DropCounters(BumpCounters(users, ci, ti), ci, ti);
    forall i | 0 <= i < |users| ensures back[i] == users[i] {
    }
  }

  /** Following an account one does not follow and unfollowing it again
      restores the edge list and every counter exactly. */
  lemma FollowThenUnfollowRestores(db: Db, a: nat, b: nat)
    requires KnownUser(db.users, a) && KnownUser(db.users, b)
    requires !HasEdge(db.edges, a, b)
    ensures UnfollowUser(FollowUser(db, a, b).db, a, b) == Step(db, Success(()))
  {
    var r := FollowUser(db, a, b);
    var ci, ti := UserIndex(db.users, a).value, UserIndex(db.users, b).value;
    assert r.db == db.(users := BumpCounters(db.users, ci, ti), edges := db.edges + [Edge(a, b)]);
    assert forall i :: 0 <= i < |db.users| ==> r.db.users[i].id == db.users[i].id;
    UserIndexSameIds(db.users, r.db.users, a);
    UserIndexSameIds(db.users, r.db.users, b);
    EdgeIndexOfAppended(db.edges, a, b);
    assert RemoveAt(db.edges + [Edge(a, b)], |db.edges|) == db.edges;
    DropUndoesBump(db.users, ci, ti);
  }

  /** Under the counter rule, an unfollow that finds its edge finds both
      counters positive, so the clamp at zero never takes effect. */
  lemma UnfollowClampInactive(db: Db, a: nat, b: nat)
    requires Valid(db) && HasEdge(db.edges, a, b)
    ensures 1 <= a <= |db.users| && 1 <= b <= |db.users|
    ensures db.users[a - 1].followingCount >= 1 && db.users[b - 1].followerCount >= 1
  {
    var k := EdgeIndex(db.edges, a, b).value;
    DegreeRemoveAt(db.edges, k, a, Outgoing);
    DegreeRemoveAt(db.edges, k, b, Incoming);
  }

  // ------------------------------------------------------------------
  // Likes

  /** Like then unlike gives the counter back (a missing counter comes back
      as 0) and leaves the shared flag cleared; nothing else changes. */
  lemma LikeThenUnlike(db: Db, u: nat, v: nat, postId: nat)
    requires KnownPost(db.posts, postId)
    ensures var i := PostIndex(db.posts, postId).value;
      UnlikePost(LikePost(db, u, postId).db, v, postId)
      == Step(db.(posts := db.posts[i := db.posts[i].(likeCount := Some(LikesOf(db.posts[i])),
                                                       likedByCurrentUser := Some(false))]),
              Success(()))
  {
    var i := PostIndex(db.posts, postId).value;
    var r := LikePost(db, u, postId);
    PostIndexSameIds(db.posts, r.db.posts, postId);
    var s := UnlikePost(r.db, v, postId);
    assert s.db.posts == db.posts[i := db.posts[i].(likeCount := Some(LikesOf(db.posts[i])),
                                                     likedByCurrentUser := Some(false))];
  }

  // ------------------------------------------------------------------
  // Listings

  function ViewIds(views: seq<CommentView>): seq<nat> {
    seq(|views|, k requires 0 <= k < |views| => views[k].comment.id)
  }

  /** In the feed, a joined post carries exactly the comments its id list
      names, in that order. */
  lemma FeedCommentsFollowIdList(db: Db, k: nat)
    requires Valid(db) && k < |GetPosts(db)|
    ensures var item := GetPosts(db)[k];
      item.Detailed? ==> ViewIds(item.comments) == item.post.comments
  {
    var feed := GetPosts(db);
    var item := feed[k];
    assert item.post == FeedPosts(feed)[k];
    assert item.post in multiset(db.posts);
    var j :| 0 <= j < |db.posts| && db.posts[j] == item.post;
    if item.Detailed? {
      var thread := Thread(db.comments, item.post.id);
      assert item == FeedEntry(db, item.post);
      assert item.post.id == j + 1;
      assert forall i :: 0 <= i < |thread| ==> ViewIds(item.comments)[i] == thread[i].id;
      assert ViewIds(item.comments) == CommentIds(thread);
    }
  }

  // ------------------------------------------------------------------
  // Scenarios

  /** After a successful register, logging in with the same email and
      password returns the new account; any other password is refused. */
  lemma RegisterThenLogin(db: Db, username: string, email: string, fullname: string, password: string, other: string)
    requires Register(db, username, email, fullname, password).reply.Success?
    requires other != password
    ensures var r := Register(db, username, email, fullname, password);
      && Login(r.db, email, password) == r.reply
      && Login(r.db, email, other) == Failure(InvalidCredentials)
  {
    var r := Register(db, username, email, fullname, password);
    var n := |db.users|;
    assert forall i :: 0 <= i < n ==> r.db.users[i] == db.users[i];
    assert forall i :: 0 <= i < n ==> r.db.users[i].email != email;
    var l := Login(r.db, email, password);
    assert r.db.users[n].email == email && r.db.users[n].password == password;
  }

  /** A freshly created post is listed for its author exactly once. */
  lemma CreatedPostListed(db: Db, userId: nat, image: string, caption: string, now: int)
    requires IdsArePositions(db)
    ensures var r := CreatePost(db, userId, image, caption, now);
      && r.reply.value in GetUserPosts(r.db, userId)
      && multiset(GetUserPosts(r.db, userId))[r.reply.value] == 1
  {
    var r := CreatePost(db, userId, image, caption, now);
    var p := r.reply.value;
    assert p !in db.posts;
    assert r.db.posts == db.posts + [p];
  }

  /** The empty-username quirk: a rename to "" skips the uniqueness check,
      so two accounts can both end up with the username "". */
  lemma EmptyUsernameSkipsUniqueness(db: Db, a: nat, b: nat)
    requires Valid(db) && a != b && KnownUser(db.users, a) && KnownUser(db.users, b)
    ensures var patch := ProfilePatch(Some(""), None, None, None, None);
      var r1 := UpdateUserProfile(db, a, patch);
      var r2 := UpdateUserProfile(r1.db, b, patch);
      && r1.reply.Success? && r2.reply.Success?
      && !DistinctHandles(r2.db.users)
  {
    var patch := ProfilePatch(Some(""), None, None, None, None);
    UserIndexIsPosition(db, a);
    var r1 := UpdateUserProfile(db, a, patch);
    UpdateKeepsValid(db, a, patch);
    UserIndexIsPosition(r1.db, b);
    var r2 := UpdateUserProfile(r1.db, b, patch);
    var lo, hi := if a < b then a - 1 else b - 1, if a < b then b - 1 else a - 1;
    assert r2.db.users[lo].username == "" && r2.db.users[hi].username == "";
  }
}
