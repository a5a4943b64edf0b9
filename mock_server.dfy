/**
 * The `api` object of the mock server as one owning object: the four tables
 * are fields that the mutating operations push onto and assign into, as the
 * source does with its module-level arrays. Each operation is proved to do
 * exactly what the matching Store function says, and to keep Store.Valid.
 */
module MockServer {
  import opened Wrappers
  import opened Records
  import opened Ordering
  import opened Store
  import StoreLaws

  class Api {
    var users: seq<User>
    var posts: seq<Post>
    var comments: seq<Comment>
    var followRelationships: seq<Edge>
    /** The browser's `instagram_user` slot, as this service sees it. */
    var storedUser: Option<Profile>

    function State(): Db
      reads this
    {
      Db(users, posts, comments, followRelationships, storedUser)
    }

    ghost predicate Valid()
      reads this
    {
      Store.Valid(State())
    }

    /** The tables start out as the seed data; `stored` is whatever session
        the browser already holds. */
    constructor (stored: Option<Profile>)
      ensures State() == Seed(stored) && Valid()
    {
      users := SeedUsers;
      posts := SeedPosts;
      comments := SeedComments;
      followRelationships := SeedEdges;
      storedUser := stored;
      StoreLaws.SeedValid(stored);
    }

    // ---------------------------------------------------------------- Auth

    method Login(email: string, password: string) returns (r: Result<Auth, ApiError>)
      ensures r == Store.Login(State(), email, password)
      ensures r.Failure? <==>
        forall i :: 0 <= i < |users| ==> !(users[i].email == email && users[i].password == password)
    {
      r := Store.Login(State(), email, password);
    }

    method Register(username: string, email: string, fullname: string, password: string)
      returns (r: Result<Auth, ApiError>)
      requires Valid()
      modifies this
      ensures Valid()
      ensures Step(State(), r) == Store.Register(old(State()), username, email, fullname, password)
    {
      StoreLaws.RegisterKeepsValid(State(), username, email, fullname, password);
      if UsernameInUse(users, username) {
        return Failure(UsernameTaken);
      }
      if EmailInUse(users, email) {
        return Failure(EmailTaken);
      }
      var u := NewUser(|users|, username, email, fullname, password);
      users := users + [u];
      r := Success(Auth(Strip(u), MockToken));
    }

    // --------------------------------------------------------------- Users

    method GetUser(username: string) returns (r: Result<Profile, ApiError>)
      ensures r == Store.GetUser(State(), username)
      ensures r.Failure? <==> !UsernameInUse(users, username)
    {
      r := Store.GetUser(State(), username);
    }

    method UpdateUserProfile(userId: nat, patch: ProfilePatch) returns (r: Result<Profile, ApiError>)
      requires Valid()
      modifies this
      ensures Valid()
      ensures Step(State(), r) == Store.UpdateUserProfile(old(State()), userId, patch)
    {
      StoreLaws.UpdateKeepsValid(State(), userId, patch);
      var found := UserIndex(users, userId);
      if found.None? {
        return Failure(UserNotFound);
      }
      var i := found.value;
      if UsernameClash(users, i, userId, patch) {
        return Failure(UsernameTaken);
      }
      if EmailClash(users, i, userId, patch) {
        return Failure(EmailTaken);
      }
      users := users[i := ApplyPatch(users[i], patch)];
      if storedUser.Some? && storedUser.value.id == userId {
        storedUser := Some(Strip(users[i]));
      }
      r := Success(Strip(users[i]));
    }

    method SearchUsers(query: string) returns (r: seq<Profile>)
      ensures r == Store.SearchUsers(users, query)
      ensures forall i :: 0 <= i < |users| && MatchesQuery(users[i], query) ==> Strip(users[i]) in r
    {
      r := Store.SearchUsers(users, query);
    }

    method FollowUser(currentUserId: nat, targetUserId: nat) returns (r: Result<(), ApiError>)
      requires Valid()
      modifies this
      ensures Valid()
      ensures Step(State(), r) == Store.FollowUser(old(State()), currentUserId, targetUserId)
    {
      ghost var before := State();
      StoreLaws.FollowKeepsValid(before, currentUserId, targetUserId);
      var ci := UserIndex(users, currentUserId);
      var ti := UserIndex(users, targetUserId);
      if ci.None? || ti.None? {
        return Failure(UserNotFound);
      }
      if !HasEdge(followRelationships, currentUserId, targetUserId) {
        followRelationships := followRelationships + [Edge(currentUserId, targetUserId)];
        users := BumpCounters(users, ci.value, ti.value);
      }
      r := Success(());
      assert Step(State(), r) == Store.FollowUser(before, currentUserId, targetUserId);
    }

    method UnfollowUser(currentUserId: nat, targetUserId: nat) returns (r: Result<(), ApiError>)
      requires Valid()
      modifies this
      ensures Valid()
      ensures Step(State(), r) == Store.UnfollowUser(old(State()), currentUserId, targetUserId)
    {
      ghost var before := State();
      StoreLaws.UnfollowKeepsValid(before, currentUserId, targetUserId);
      var ci := UserIndex(users, currentUserId);
      var ti := UserIndex(users, targetUserId);
      if ci.None? || ti.None? {
        return Failure(UserNotFound);
      }
      var k := EdgeIndex(followRelationships, currentUserId, targetUserId);
      if k.Some? {
        followRelationships := followRelationships[..k.value] + followRelationships[k.value + 1..];
        users := DropCounters(users, ci.value, ti.value);
        assert followRelationships == RemoveAt(before.edges, k.value);
      }
      r := Success(());
      assert Step(State(), r) == Store.UnfollowUser(before, currentUserId, targetUserId);
    }

    // --------------------------------------------------------------- Posts

    method GetPosts() returns (r: seq<FeedItem>)
      ensures r == Store.GetPosts(State())
      ensures |r| == |posts| && NewestFirst(FeedPosts(r))
    {
      r := Store.GetPosts(State());
    }

    method GetUserPosts(userId: nat) returns (r: seq<Post>)
      ensures r == Store.GetUserPosts(State(), userId)
      ensures NewestFirst(r) && forall p :: p in r <==> p in posts && p.userId == userId
    {
      r := Store.GetUserPosts(State(), userId);
    }

    method CreatePost(userId: nat, image: string, caption: string, now: int) returns (p: Post)
      requires Valid()
      modifies this
      ensures Valid()
      ensures Step(State(), Success(p)) == Store.CreatePost(old(State()), userId, image, caption, now)
    {
      StoreLaws.CreatePostKeepsValid(State(), userId, image, caption, now);
      p := Post(|posts| + 1, userId, image, caption, Some(0), None, [], now);
      posts := posts + [p];
    }

    method LikePost(userId: nat, postId: nat) returns (r: Result<(), ApiError>)
      requires Valid()
      modifies this
      ensures Valid()
      ensures Step(State(), r) == Store.LikePost(old(State()), userId, postId)
    {
      StoreLaws.LikeKeepsValid(State(), userId, postId);
      var i := PostIndex(posts, postId);
      if i.None? {
        return Failure(PostNotFound);
      }
      posts := posts[i.value := posts[i.value].(likeCount := Some(LikesOf(posts[i.value]) + 1),
                                                likedByCurrentUser := Some(true))];
      r := Success(());
    }

    method UnlikePost(userId: nat, postId: nat) returns (r: Result<(), ApiError>)
      requires Valid()
      modifies this
      ensures Valid()
      ensures Step(State(), r) == Store.UnlikePost(old(State()), userId, postId)
    {
      StoreLaws.LikeKeepsValid(State(), userId, postId);
      var i := PostIndex(posts, postId);
      if i.None? {
        return Failure(PostNotFound);
      }
      posts := posts[i.value := posts[i.value].(likeCount := Some(ClampedDecrement(LikesOf(posts[i.value]))),
                                                likedByCurrentUser := Some(false))];
      r := Success(());
    }

    // ------------------------------------------------------------ Comments

    method AddComment(userId: nat, postId: nat, content: string, now: int)
      returns (r: Result<PostedComment, ApiError>)
      requires Valid()
      modifies this
      ensures Valid()
      ensures Step(State(), r) == Store.AddComment(old(State()), userId, postId, content, now)
    {
      StoreLaws.AddCommentKeepsValid(State(), userId, postId, content, now);
      var i := PostIndex(posts, postId);
      if i.None? {
        return Failure(PostNotFound);
      }
      var c := Comment(|comments| + 1, postId, userId, content, now);
      comments := comments + [c];
      posts := posts[i.value := posts[i.value].(comments := posts[i.value].comments + [c.id])];
      r := Success(PostedComment(c, FindUser(users, userId)));
    }
  }
}
