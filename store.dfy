/**
 * The local fallback data service: the tables the mock API keeps in memory and
 * one function per `fallbackFn`. Queries return a value; a mutation returns a
 * `Step`, the new tables together with the reply (a value or a thrown error).
 * Every error is raised before anything is changed.
 */
module Store {
  import opened Wrappers
  import opened Records
  import opened Seqs
  import opened Ordering
  import opened Decimal

  /** The service's state: the four module-level arrays, plus the browser's
      `instagram_user` slot, which some operations read and one writes. */
  datatype Db = Db(
    users: seq<User>,
    posts: seq<Post>,
    comments: seq<Comment>,
    edges: seq<Edge>,
    session: Option<Profile>)

  /** The tables after a mutation together with what the call returned. */
  datatype Step<T> = Step(db: Db, reply: Result<T, ApiError>)

  // ------------------------------------------------------------------
  // Seed data

  const SeedUsers: seq<User> := [
    User(1, "johndoe", "John Doe", "john@example.com", "https://i.pravatar.cc/150?img=1",
         "Photographer | Traveler | Food Lover", "password123", 2, 1),
    User(2, "janedoe", "Jane Doe", "jane@example.com", "https://i.pravatar.cc/150?img=5",
         "Digital Nomad | Adventure Seeker", "password123", 1, 2),
    User(3, "alex_smith", "Alex Smith", "alex@example.com", "https://i.pravatar.cc/150?img=8",
         "Web Developer | Coffee Enthusiast", "password123", 1, 1)
  ]

  const SeedPosts: seq<Post> := [
    Post(1, 1, "https://picsum.photos/id/237/600/600",
         "My awesome dog! \U{1F415} #dogsofinstagram", Some(2), None, [1, 2], 1680667200000),
    Post(2, 1, "https://picsum.photos/id/25/600/600",
         "Beautiful sunset at the beach \U{1F305} #sunset #beach", Some(1), None, [3], 1681099200000),
    Post(3, 2, "https://picsum.photos/id/102/600/600",
         "Morning hike with amazing views \U{1F3D4}\U{FE0F} #hiking #nature", Some(2), None, [4], 1681531200000),
    Post(4, 3, "https://picsum.photos/id/1005/600/600",
         "Working on a new project! #coding #webdev", Some(1), None, [], 1681790400000),
    Post(5, 3, "https://picsum.photos/id/1006/600/600",
         "Coffee time \U{2615} #coffee #worklife", Some(1), None, [5], 1681963200000)
  ]

  const SeedComments: seq<Comment> := [
    Comment(1, 1, 2, "So cute! \U{1F60D}", 1714983000000),
    Comment(2, 1, 3, "What breed is he?", 1714986600000),
    Comment(3, 2, 2, "Gorgeous view!", 1715023700000),
    Comment(4, 3, 1, "Looks amazing! Where is this?", 1715677200000),
    Comment(5, 5, 2, "Nothing better than a good cup of coffee!", 1715850600000)
  ]

  const SeedEdges: seq<Edge> := [Edge(1, 2), Edge(2, 1), Edge(2, 3), Edge(3, 1)]

  /** The tables at start-up; the session slot is whatever the browser holds. */
  function Seed(session: Option<Profile>): Db {
    Db(SeedUsers, SeedPosts, SeedComments, SeedEdges, session)
  }

  // ------------------------------------------------------------------
  // Lookups

  /** `users.findIndex(u => u.id === id)` */
  function UserIndex(users: seq<User>, id: nat): (r: Option<nat>)
    ensures r.None? <==> forall i :: 0 <= i < |users| ==> users[i].id != id
    ensures r.Some? ==> r.value < |users| && users[r.value].id == id
    ensures r.Some? ==> forall i :: 0 <= i < r.value ==> users[i].id != id
  {
    IndexWhere(users, (u: User) => u.id == id)
  }

  /** `users.find(u => u.id === id)` */
  function FindUser(users: seq<User>, id: nat): (r: Option<User>)
    ensures r.Some? <==> exists i :: 0 <= i < |users| && users[i].id == id
    ensures r.Some? ==> r.value in users && r.value.id == id
    ensures r.Some? ==>
      exists i :: 0 <= i < |users| && users[i].id == id && r.value == users[i]
        && forall j :: 0 <= j < i ==> users[j].id != id
  {
    match UserIndex(users, id)
    case Some(i) => Some(users[i])
    case None => None
  }

  /** `posts.find(p => p.id === id)`, as an index. */
  function PostIndex(posts: seq<Post>, id: nat): (r: Option<nat>)
    ensures r.None? <==> forall i :: 0 <= i < |posts| ==> posts[i].id != id
    ensures r.Some? ==> r.value < |posts| && posts[r.value].id == id
    ensures r.Some? ==> forall i :: 0 <= i < r.value ==> posts[i].id != id
  {
    IndexWhere(posts, (p: Post) => p.id == id)
  }

  predicate KnownUser(users: seq<User>, id: nat) {
    exists i :: 0 <= i < |users| && users[i].id == id
  }

  predicate KnownPost(posts: seq<Post>, id: nat) {
    exists i :: 0 <= i < |posts| && posts[i].id == id
  }

  /** `followRelationships.some(rel => rel.follower_id === a && rel.following_id === b)` */
  predicate HasEdge(edges: seq<Edge>, a: nat, b: nat) {
    Edge(a, b) in edges
  }

  /** `followRelationships.findIndex(...)` for the edge from `a` to `b`. */
  function EdgeIndex(edges: seq<Edge>, a: nat, b: nat): (r: Option<nat>)
    ensures r.None? <==> !HasEdge(edges, a, b)
    ensures r.Some? ==> r.value < |edges| && edges[r.value] == Edge(a, b)
    ensures r.Some? ==> Edge(a, b) !in edges[..r.value]
  {
    IndexWhere(edges, (e: Edge) => e == Edge(a, b))
  }

  function OnPost(postId: nat): Comment -> bool {
    (c: Comment) => c.postId == postId
  }

  /** `comments.filter(c => c.post_id === postId)`, in collection order. */
  function Thread(comments: seq<Comment>, postId: nat): (r: seq<Comment>)
    ensures forall c :: c in r <==> c in comments && c.postId == postId
  {
    Filter(comments, OnPost(postId))
  }

  function CommentIds(cs: seq<Comment>): seq<nat> {
    seq(|cs|, i requires 0 <= i < |cs| => cs[i].id)
  }

  // ------------------------------------------------------------------
  // Denormalised follow counters

  datatype Direction = Incoming | Outgoing

  function Endpoint(e: Edge, d: Direction): nat {
    if d == Incoming then e.following else e.follower
  }

  /** How many edges point at `id` (Incoming) or leave it (Outgoing). */
  function Degree(edges: seq<Edge>, id: nat, d: Direction): nat {
    if |edges| == 0 then 0
    else (if Endpoint(edges[0], d) == id then 1 else 0) + Degree(edges[1..], id, d)
  }

  /** The counter updates of `followUser`: the follower's `following_count`
      and the target's `follower_count` each go up by one (both on the same
      account for a self-follow). */
  function BumpCounters(users: seq<User>, ci: nat, ti: nat): (r: seq<User>)
    requires ci < |users| && ti < |users|
    ensures |r| == |users|
    ensures forall i :: 0 <= i < |users| ==>
      && r[i].followingCount == users[i].followingCount + (if i == ci then 1 else 0)
      && r[i].followerCount == users[i].followerCount + (if i == ti then 1 else 0)
      && r[i].(followerCount := 0, followingCount := 0) == users[i].(followerCount := 0, followingCount := 0)
  {
    var users1 := users[ci := users[ci].(followingCount := users[ci].followingCount + 1)];
    users1[ti := users1[ti].(followerCount := users1[ti].followerCount + 1)]
  }

  /** The counter updates of `unfollowUser`, each clamped at zero. */
  function DropCounters(users: seq<User>, ci: nat, ti: nat): (r: seq<User>)
    requires ci < |users| && ti < |users|
    ensures |r| == |users|
    ensures forall i :: 0 <= i < |users| ==>
      && r[i].followingCount ==
           (if i == ci then ClampedDecrement(users[i].followingCount) else users[i].followingCount)
      && r[i].followerCount ==
           (if i == ti then ClampedDecrement(users[i].followerCount) else users[i].followerCount)
      && r[i].(followerCount := 0, followingCount := 0) == users[i].(followerCount := 0, followingCount := 0)
  {
    var users1 := users[ci := users[ci].(followingCount := ClampedDecrement(users[ci].followingCount))];
    users1[ti := users1[ti].(followerCount := ClampedDecrement(users1[ti].followerCount))]
  }

  /** `splice(k, 1)`: the sequence without its element at k. */
  function RemoveAt<T>(s: seq<T>, k: nat): (r: seq<T>)
    requires k < |s|
    ensures |r| == |s| - 1
    ensures multiset(r) == multiset(s) - multiset{s[k]}
    ensures forall i :: 0 <= i < |r| ==> r[i] == if i < k then s[i] else s[i + 1]
  {
    assert s == s[..k] + [s[k]] + s[k + 1..];
    s[..k] + s[k + 1..]
  }

  /** `Math.max(0, c - 1)` */
  function ClampedDecrement(c: nat): nat {
    if c == 0 then 0 else c - 1
  }

  /** ClampedDecrement is `Math.max(0, c - 1)`: at most one below `c`, never
      below zero, and equal to `c` exactly when `c` is zero. */
  lemma ClampedDecrementIsMax(c: nat)
    ensures ClampedDecrement(c) <= c <= ClampedDecrement(c) + 1
    ensures ClampedDecrement(c) == c <==> c == 0
  {
  }

  // ------------------------------------------------------------------
  // The consistency rules the seed data satisfies and every mutation keeps

  /** Ids are `String(length + 1)` at creation and nothing is deleted, so the
      record at position i has id i + 1. */
  predicate UserIdsArePositions(users: seq<User>) {
    forall i :: 0 <= i < |users| ==> users[i].id == i + 1
  }

  predicate PostIdsArePositions(posts: seq<Post>) {
    forall i :: 0 <= i < |posts| ==> posts[i].id == i + 1
  }

  predicate CommentIdsArePositions(comments: seq<Comment>) {
    forall i :: 0 <= i < |comments| ==> comments[i].id == i + 1
  }

  predicate IdsArePositions(db: Db) {
    UserIdsArePositions(db.users) && PostIdsArePositions(db.posts) && CommentIdsArePositions(db.comments)
  }

  /** Every edge joins two of the `n` accounts. */
  predicate EdgesJoinUsers(edges: seq<Edge>, n: nat) {
    forall k :: 0 <= k < |edges| ==> 1 <= edges[k].follower <= n && 1 <= edges[k].following <= n
  }

  /** No ordered pair is stored twice. */
  predicate NoDuplicateEdges(edges: seq<Edge>) {
    forall i, j :: 0 <= i < j < |edges| ==> edges[i] != edges[j]
  }

  predicate EdgesWellFormed(db: Db) {
    EdgesJoinUsers(db.edges, |db.users|) && NoDuplicateEdges(db.edges)
  }

  /** Each account's counters equal the number of edges into and out of it. */
  predicate CountersAgree(users: seq<User>, edges: seq<Edge>) {
    forall i :: 0 <= i < |users| ==>
      && users[i].followerCount == Degree(edges, i + 1, Incoming)
      && users[i].followingCount == Degree(edges, i + 1, Outgoing)
  }

  /** Every comment belongs to one of the `n` posts. */
  predicate CommentsJoinPosts(comments: seq<Comment>, n: nat) {
    forall k :: 0 <= k < |comments| ==> 1 <= comments[k].postId <= n
  }

  /** Each post's comment-id list is exactly the ids of its comments, in
      collection order. */
  predicate CommentListsAgree(posts: seq<Post>, comments: seq<Comment>) {
    forall i :: 0 <= i < |posts| ==> posts[i].comments == CommentIds(Thread(comments, i + 1))
  }

  /** The consistency rules the seed data satisfies and every mutation keeps. */
  predicate Valid(db: Db) {
    && IdsArePositions(db)
    && EdgesWellFormed(db)
    && CountersAgree(db.users, db.edges)
    && CommentsJoinPosts(db.comments, |db.posts|)
    && CommentListsAgree(db.posts, db.comments)
  }

  /** Usernames and emails are unique across accounts. */
  predicate DistinctHandles(users: seq<User>) {
    forall i, j :: 0 <= i < j < |users| ==>
      users[i].username != users[j].username && users[i].email != users[j].email
  }

  // ------------------------------------------------------------------
  // Auth

  /** `login`: the first account matching both email and password. */
  function Login(db: Db, email: string, password: string): (r: Result<Auth, ApiError>)
    ensures r.Failure? <==>
      forall i :: 0 <= i < |db.users| ==> !(db.users[i].email == email && db.users[i].password == password)
    ensures r.Failure? ==> r.error == InvalidCredentials
    ensures r.Success? ==> r.value.token == MockToken
    ensures r.Success? ==>
      exists i :: 0 <= i < |db.users| && db.users[i].email == email
        && db.users[i].password == password && r.value.user == Strip(db.users[i])
        && forall j :: 0 <= j < i ==> !(db.users[j].email == email && db.users[j].password == password)
  {
    match IndexWhere(db.users, (u: User) => u.email == email && u.password == password)
    case None => Failure(InvalidCredentials)
    case Some(i) => Success(Auth(Strip(db.users[i]), MockToken))
  }

  predicate UsernameInUse(users: seq<User>, username: string) {
    exists i :: 0 <= i < |users| && users[i].username == username
  }

  predicate EmailInUse(users: seq<User>, email: string) {
    exists i :: 0 <= i < |users| && users[i].email == email
  }

  const AvatarBase: string := "https://i.pravatar.cc/150?img="

  /** The account `register` creates when the table holds `n` accounts; its
      avatar is the placeholder numbered `n + 10`. */
  function NewUser(n: nat, username: string, email: string, fullname: string, password: string): (u: User)
    ensures u.id == n + 1 && u.username == username && u.email == email
    ensures u.fullname == fullname && u.password == password
    ensures u.bio == "" && u.followerCount == 0 && u.followingCount == 0
    ensures |u.profilePicture| > |AvatarBase|
    ensures u.profilePicture[..|AvatarBase|] == AvatarBase
    ensures u.profilePicture[|AvatarBase|..] == DecimalString(n + 10)
    ensures var digits := u.profilePicture[|AvatarBase|..];
      (forall i :: 0 <= i < |digits| ==> IsDigit(digits[i])) && ParseDecimal(digits) == n + 10
  {
    var digits := DecimalString(n + 10);
    ParseDecimalString(n + 10);
    assert (AvatarBase + digits)[|AvatarBase|..] == digits;
    User(n + 1, username, fullname, email, AvatarBase + digits, "", password, 0, 0)
  }

  /** `register`: the username is checked before the email; a fresh account is
      appended with id length + 1, an empty bio and zero counters. */
  function Register(db: Db, username: string, email: string, fullname: string, password: string)
    : (r: Step<Auth>)
    ensures UsernameInUse(db.users, username) ==> r == Step(db, Failure(UsernameTaken))
    ensures !UsernameInUse(db.users, username) && EmailInUse(db.users, email) ==>
      r == Step(db, Failure(EmailTaken))
    ensures r.reply.Success? <==> !UsernameInUse(db.users, username) && !EmailInUse(db.users, email)
    ensures r.reply.Success? ==>
      && r.db == db.(users := r.db.users)
      && |r.db.users| == |db.users| + 1
      && r.db.users[..|db.users|] == db.users
      && var u := r.db.users[|db.users|];
         && u.id == |db.users| + 1 && u.username == username && u.email == email
         && u.fullname == fullname && u.password == password && u.bio == ""
         && u.followerCount == 0 && u.followingCount == 0
         && u == NewUser(|db.users|, username, email, fullname, password)
         && r.reply.value == Auth(Strip(u), MockToken)
  {
    if UsernameInUse(db.users, username) then Step(db, Failure(UsernameTaken))
    else if EmailInUse(db.users, email) then Step(db, Failure(EmailTaken))
    else
      var u := NewUser(|db.users|, username, email, fullname, password);
      assert (db.users + [u])[..|db.users|] == db.users;
      Step(db.(users := db.users + [u]), Success(Auth(Strip(u), MockToken)))
  }

  // ------------------------------------------------------------------
  // Users

  /** `is_following` as the account lookups compute it: present only when a
      session user is stored. */
  function FollowFlag(db: Db, id: nat): (r: Option<bool>)
    ensures r.Some? <==> db.session.Some?
    ensures r == Some(true) <==> db.session.Some? && Edge(db.session.value.id, id) in db.edges
  {
    match db.session
    case Some(me) => Some(HasEdge(db.edges, me.id, id))
    case None => None
  }

  /** `getUser`: the first account with that username, without password. */
  function GetUser(db: Db, username: string): (r: Result<Profile, ApiError>)
    ensures r.Failure? <==> !UsernameInUse(db.users, username)
    ensures r.Failure? ==> r.error == UserNotFound
    ensures r.Success? ==>
      exists i :: 0 <= i < |db.users| && db.users[i].username == username
        && r.value == Strip(db.users[i]).(isFollowing := FollowFlag(db, db.users[i].id))
        && forall j :: 0 <= j < i ==> db.users[j].username != username
    ensures r.Success? && db.session.None? ==> r.value.isFollowing.None?
    ensures r.Success? && db.session.Some? ==>
      r.value.isFollowing == Some(HasEdge(db.edges, db.session.value.id, r.value.id))
  {
    match IndexWhere(db.users, (u: User) => u.username == username)
    case None => Failure(UserNotFound)
    case Some(i) => Success(Strip(db.users[i]).(isFollowing := FollowFlag(db, db.users[i].id)))
  }

  /** The fields `updateUserProfile` accepts; an absent field is left alone. */
  datatype ProfilePatch = ProfilePatch(
    username: Option<string>,
    fullname: Option<string>,
    email: Option<string>,
    bio: Option<string>,
    profilePicture: Option<string>)

  /** JavaScript truthiness of an optional string: present and non-empty. */
  predicate Truthy(s: Option<string>) {
    s.Some? && s.value != ""
  }

  function Override(current: string, s: Option<string>): string {
    if s.Some? then s.value else current
  }

  /** `{ ...user, ...patch }` */
  function ApplyPatch(u: User, patch: ProfilePatch): (v: User)
    ensures v.id == u.id && v.password == u.password
    ensures v.followerCount == u.followerCount && v.followingCount == u.followingCount
    ensures patch.username.Some? ==> v.username == patch.username.value
    ensures patch.username.None? ==> v.username == u.username
    ensures patch.fullname.Some? ==> v.fullname == patch.fullname.value
    ensures patch.fullname.None? ==> v.fullname == u.fullname
    ensures patch.email.Some? ==> v.email == patch.email.value
    ensures patch.email.None? ==> v.email == u.email
    ensures patch.bio.Some? ==> v.bio == patch.bio.value
    ensures patch.bio.None? ==> v.bio == u.bio
    ensures patch.profilePicture.Some? ==> v.profilePicture == patch.profilePicture.value
    ensures patch.profilePicture.None? ==> v.profilePicture == u.profilePicture
  {
    u.(username := Override(u.username, patch.username),
       fullname := Override(u.fullname, patch.fullname),
       email := Override(u.email, patch.email),
       bio := Override(u.bio, patch.bio),
       profilePicture := Override(u.profilePicture, patch.profilePicture))
  }

  /** The guard at mockServer.ts:265-267: a supplied, non-empty, changed
      username already held by an account with another id. */
  predicate UsernameClash(users: seq<User>, i: nat, userId: nat, patch: ProfilePatch)
    requires i < |users|
  {
    && Truthy(patch.username)
    && patch.username.value != users[i].username
    && exists j :: 0 <= j < |users| && users[j].username == patch.username.value && users[j].id != userId
  }

  /** The same guard for the email, mockServer.ts:272-274. */
  predicate EmailClash(users: seq<User>, i: nat, userId: nat, patch: ProfilePatch)
    requires i < |users|
  {
    && Truthy(patch.email)
    && patch.email.value != users[i].email
    && exists j :: 0 <= j < |users| && users[j].email == patch.email.value && users[j].id != userId
  }

  /** `updateUserProfile`: overwrites the supplied fields of the account and,
      when the stored session user is that account, refreshes the stored copy. */
  function UpdateUserProfile(db: Db, userId: nat, patch: ProfilePatch): (r: Step<Profile>)
    ensures !KnownUser(db.users, userId) ==> r == Step(db, Failure(UserNotFound))
    ensures r.reply.Failure? ==> r.db == db
    ensures KnownUser(db.users, userId) ==>
      var i := UserIndex(db.users, userId).value;
      && (UsernameClash(db.users, i, userId, patch) ==> r.reply == Failure(UsernameTaken))
      && (!UsernameClash(db.users, i, userId, patch) && EmailClash(db.users, i, userId, patch) ==>
            r.reply == Failure(EmailTaken))
      && (r.reply.Success? <==>
            !UsernameClash(db.users, i, userId, patch) && !EmailClash(db.users, i, userId, patch))
    ensures r.reply.Success? ==>
      var i := UserIndex(db.users, userId).value;
      var u := ApplyPatch(db.users[i], patch);
      && r.db.users == db.users[i := u]
      && r.db.posts == db.posts && r.db.comments == db.comments && r.db.edges == db.edges
      && r.db.session == (if db.session.Some? && db.session.value.id == userId then Some(Strip(u))
                          else db.session)
      && r.reply.value == Strip(u)
  {
    match UserIndex(db.users, userId)
    case None => Step(db, Failure(UserNotFound))
    case Some(i) =>
      if UsernameClash(db.users, i, userId, patch) then Step(db, Failure(UsernameTaken))
      else if EmailClash(db.users, i, userId, patch) then Step(db, Failure(EmailTaken))
      else
        var u := ApplyPatch(db.users[i], patch);
        var session := if db.session.Some? && db.session.value.id == userId then Some(Strip(u))
                       else db.session;
        Step(db.(users := db.users[i := u], session := session), Success(Strip(u)))
  }

  /** `s.includes(q)`: case-sensitive substring test; every string contains "". */
  predicate Contains(s: string, q: string) {
    q <= s || (|s| > 0 && Contains(s[1..], q))
  }

  /** `q` occurs in `s` starting at offset `i`. */
  predicate OccursAt(s: string, q: string, i: nat) {
    i + |q| <= |s| && s[i..i + |q|] == q
  }

  /** A window of the tail is the window one further along in the string. */
  lemma TailWindow(s: string, i: nat, n: nat)
    requires 1 <= i && i + n <= |s|
    ensures s[1..][i - 1..i - 1 + n] == s[i..i + n]
  {
    var w := s[1..][i - 1..i - 1 + n];
    assert forall j :: 0 <= j < n ==> w[j] == s[i..i + n][j];
  }

  /** Contains is the usual substring test: `q` occurs at some offset of `s`. */
  lemma {:induction false} ContainsIffOccurs(s: string, q: string)
    ensures Contains(s, q) <==> exists i: nat :: OccursAt(s, q, i)
  {
    if q <= s {
      assert OccursAt(s, q, 0);
    } else if |s| > 0 {
      ContainsIffOccurs(s[1..], q);
      if Contains(s[1..], q) {
        var i: nat :| OccursAt(s[1..], q, i);
        TailWindow(s, i + 1, |q|);
        assert OccursAt(s, q, i + 1);
      } else {
        forall i: nat
          ensures !OccursAt(s, q, i)
        {
          if i > 0 && i + |q| <= |s| {
            TailWindow(s, i, |q|);
            assert !OccursAt(s[1..], q, i - 1);
          }
        }
      }
    }
  }

  predicate MatchesQuery(u: User, query: string) {
    Contains(u.username, query) || Contains(u.fullname, query)
  }

  function Matching(query: string): User -> bool {
    (u: User) => MatchesQuery(u, query)
  }

  /** `results.map(({ password: _, ...user }) => user)` */
  function StripAll(us: seq<User>): (r: seq<Profile>)
    ensures |r| == |us|
  {
    if |us| == 0 then [] else [Strip(us[0])] + StripAll(us[1..])
  }

  /** Every profile of a stripped selection is the stripped copy of a
      selected account. */
  lemma {:induction false} StrippedSelectionSound(users: seq<User>, p: User -> bool, r: seq<Profile>)
    requires r == StripAll(Filter(users, p))
    ensures forall k :: 0 <= k < |r| ==> exists i :: 0 <= i < |users| && p(users[i]) && r[k] == Strip(users[i])
  {
    if |users| > 0 {
      var tail := users[1..];
      var rest := StripAll(Filter(tail, p));
      StrippedSelectionSound(tail, p, rest);
      var shift := if p(users[0]) then 1 else 0;
      var f := Filter(users, p);
      if p(users[0]) {
        assert f == [users[0]] + Filter(tail, p);
        assert f[1..] == Filter(tail, p);
        assert r == [Strip(users[0])] + rest;
      } else {
        assert r == rest;
      }
      forall k | 0 <= k < |r|
        ensures exists i :: 0 <= i < |users| && p(users[i]) && r[k] == Strip(users[i])
      {
        if k < shift {
          assert p(users[0]) && r[k] == Strip(users[0]);
        } else {
          var i :| 0 <= i < |tail| && p(tail[i]) && rest[k - shift] == Strip(tail[i]);
          assert users[i + 1] == tail[i];
        }
      }
    }
  }

  /** Every selected account appears, stripped, in the stripped selection. */
  lemma {:induction false} StrippedSelectionComplete(users: seq<User>, p: User -> bool, r: seq<Profile>)
    requires r == StripAll(Filter(users, p))
    ensures forall i :: 0 <= i < |users| && p(users[i]) ==> Strip(users[i]) in r
  {
    if |users| > 0 {
      var tail := users[1..];
      var rest := StripAll(Filter(tail, p));
      StrippedSelectionComplete(tail, p, rest);
      var f := Filter(users, p);
      if p(users[0]) {
        assert f == [users[0]] + Filter(tail, p);
        assert f[1..] == Filter(tail, p);
        assert r == [Strip(users[0])] + rest;
      } else {
        assert r == rest;
      }
      forall i | 0 <= i < |users| && p(users[i])
        ensures Strip(users[i]) in r
      {
        if i > 0 {
          assert users[i] == tail[i - 1];
        }
      }
    }
  }

  /** `searchUsers`: every account whose username or full name contains the
      query, once each and in table order, without password. */
  function SearchUsers(users: seq<User>, query: string): (r: seq<Profile>)
    ensures |r| <= |users|
    ensures r == StripAll(Filter(users, Matching(query)))
    ensures forall k :: 0 <= k < |r| ==>
      exists i :: 0 <= i < |users| && MatchesQuery(users[i], query) && r[k] == Strip(users[i])
    ensures forall i :: 0 <= i < |users| && MatchesQuery(users[i], query) ==> Strip(users[i]) in r
  {
    var r := if |users| == 0 then []
      else if MatchesQuery(users[0], query) then [Strip(users[0])] + SearchUsers(users[1..], query)
      else SearchUsers(users[1..], query);
    assert |users| > 0 && MatchesQuery(users[0], query) ==>
      Filter(users, Matching(query)) == [users[0]] + Filter(users[1..], Matching(query));
    assert r == StripAll(Filter(users, Matching(query)));
    StrippedSelectionSound(users, Matching(query), r);
    StrippedSelectionComplete(users, Matching(query), r);
    assert forall u :: Matching(query)(u) == MatchesQuery(u, query);
    r
  }

  // ------------------------------------------------------------------
  // Follow relationships

  /** `followUser`: idempotent; a new edge bumps both counters by one. */
  function FollowUser(db: Db, currentUserId: nat, targetUserId: nat): (r: Step<()>)
    ensures r.reply.Failure? <==> !(KnownUser(db.users, currentUserId) && KnownUser(db.users, targetUserId))
    ensures r.reply.Failure? ==> r == Step(db, Failure(UserNotFound))
    ensures HasEdge(db.edges, currentUserId, targetUserId) ==> r.db == db
    ensures r.reply.Success? && !HasEdge(db.edges, currentUserId, targetUserId) ==>
      var ci := UserIndex(db.users, currentUserId).value;
      var ti := UserIndex(db.users, targetUserId).value;
      r.db == db.(users := BumpCounters(db.users, ci, ti), edges := db.edges + [Edge(currentUserId, targetUserId)])
  {
    match (UserIndex(db.users, currentUserId), UserIndex(db.users, targetUserId))
    case (Some(ci), Some(ti)) =>
      if HasEdge(db.edges, currentUserId, targetUserId) then Step(db, Success(()))
      else
        Step(db.(users := BumpCounters(db.users, ci, ti), edges := db.edges + [Edge(currentUserId, targetUserId)]),
             Success(()))
    case _ => Step(db, Failure(UserNotFound))
  }

  /** `unfollowUser`: a missing edge is a no-op; otherwise the first matching
      edge is spliced out and both counters drop by one, clamped at zero. */
  function UnfollowUser(db: Db, currentUserId: nat, targetUserId: nat): (r: Step<()>)
    ensures r.reply.Failure? <==> !(KnownUser(db.users, currentUserId) && KnownUser(db.users, targetUserId))
    ensures r.reply.Failure? ==> r == Step(db, Failure(UserNotFound))
    ensures !HasEdge(db.edges, currentUserId, targetUserId) ==> r.db == db
    ensures r.reply.Success? && HasEdge(db.edges, currentUserId, targetUserId) ==>
      var ci := UserIndex(db.users, currentUserId).value;
      var ti := UserIndex(db.users, targetUserId).value;
      var k := EdgeIndex(db.edges, currentUserId, targetUserId).value;
      && r.db == db.(users := DropCounters(db.users, ci, ti), edges := RemoveAt(db.edges, k))
  {
    match (UserIndex(db.users, currentUserId), UserIndex(db.users, targetUserId))
    case (Some(ci), Some(ti)) =>
      (match EdgeIndex(db.edges, currentUserId, targetUserId)
       case None => Step(db, Success(()))
       case Some(k) => Step(db.(users := DropCounters(db.users, ci, ti), edges := RemoveAt(db.edges, k)), Success(())))
    case _ => Step(db, Failure(UserNotFound))
  }

  // ------------------------------------------------------------------
  // Posts

  /** A comment joined with its author, as `getPosts` returns it. */
  datatype CommentView = CommentView(comment: Comment, user: Profile)

  /** One entry of `getPosts`: a post whose author exists comes joined with
      that author and its comments (which replace the id list in the output);
      a post whose author is missing comes back bare. */
  datatype FeedItem =
    | Detailed(post: Post, user: Profile, comments: seq<CommentView>)
    | Bare(post: Post)

  /** A comment's author, or `users[0]` when the author is missing. */
  function CommentAuthor(users: seq<User>, c: Comment): (p: Profile)
    requires |users| > 0
    ensures KnownUser(users, c.userId) ==> p.id == c.userId
    ensures KnownUser(users, c.userId) ==>
      exists i :: 0 <= i < |users| && users[i].id == c.userId && p == Strip(users[i])
        && forall j :: 0 <= j < i ==> users[j].id != c.userId
    ensures !KnownUser(users, c.userId) ==> p == Strip(users[0])
  {
    match UserIndex(users, c.userId)
    case Some(j) => Strip(users[j])
    case None => Strip(users[0])
  }

  function JoinComments(users: seq<User>, cs: seq<Comment>): (r: seq<CommentView>)
    requires |users| > 0
    ensures |r| == |cs|
    ensures forall k :: 0 <= k < |cs| ==> r[k].comment == cs[k] && r[k].user == CommentAuthor(users, cs[k])
  {
    seq(|cs|, k requires 0 <= k < |cs| => CommentView(cs[k], CommentAuthor(users, cs[k])))
  }

  /** The `map` step of `getPosts` for one post. */
  function FeedEntry(db: Db, p: Post): (r: FeedItem)
    ensures r.post == p
    ensures r.Detailed? <==> KnownUser(db.users, p.userId)
    ensures r.Detailed? ==>
      && (exists i :: 0 <= i < |db.users| && db.users[i].id == p.userId
            && r.user == Strip(db.users[i]).(isFollowing := Some(FollowFlag(db, p.userId) == Some(true)))
            && forall j :: 0 <= j < i ==> db.users[j].id != p.userId)
      && |r.comments| == |Thread(db.comments, p.id)|
      && (forall k :: 0 <= k < |r.comments| ==> r.comments[k].comment == Thread(db.comments, p.id)[k])
      && (forall k :: 0 <= k < |r.comments| ==>
            r.comments[k].user == CommentAuthor(db.users, Thread(db.comments, p.id)[k]))
  {
    match UserIndex(db.users, p.userId)
    case None => Bare(p)
    case Some(i) =>
      var author := Strip(db.users[i]).(isFollowing := Some(FollowFlag(db, db.users[i].id) == Some(true)));
      Detailed(p, author, JoinComments(db.users, Thread(db.comments, p.id)))
  }

  function FeedPosts(items: seq<FeedItem>): seq<Post> {
    seq(|items|, i requires 0 <= i < |items| => items[i].post)
  }

  /** `getPosts`: every post once, newest first, each joined as FeedEntry says. */
  function GetPosts(db: Db): (r: seq<FeedItem>)
    ensures |r| == |db.posts|
    ensures NewestFirst(FeedPosts(r))
    ensures multiset(FeedPosts(r)) == multiset(db.posts)
    ensures forall i :: 0 <= i < |r| ==> r[i] == FeedEntry(db, r[i].post)
  {
    var sorted := SortNewestFirst(db.posts);
    var r := seq(|sorted|, i requires 0 <= i < |sorted| => FeedEntry(db, sorted[i]));
    assert FeedPosts(r) == sorted;
    r
  }

  /** `posts.filter(p => p.user_id === userId)` */
  function PostsBy(posts: seq<Post>, userId: nat): (r: seq<Post>)
    ensures forall p :: p in r <==> p in posts && p.userId == userId
    ensures forall p: Post :: p.userId == userId ==> multiset(r)[p] == multiset(posts)[p]
  {
    FilterMultiset(posts, (p: Post) => p.userId == userId);
    Filter(posts, (p: Post) => p.userId == userId)
  }

  /** `getUserPosts`: the posts of one account, each as often as stored,
      newest first, not joined. */
  function GetUserPosts(db: Db, userId: nat): (r: seq<Post>)
    ensures NewestFirst(r)
    ensures forall p :: p in r <==> p in db.posts && p.userId == userId
    ensures forall p: Post :: p.userId == userId ==> multiset(r)[p] == multiset(db.posts)[p]
  {
    var mine := PostsBy(db.posts, userId);
    var r := SortNewestFirst(mine);
    assert multiset(r) == multiset(mine);
    assert forall p :: p in r <==> p in multiset(mine);
    r
  }

  /** `createPost`: appends a post with id length + 1, no likes and no
      comments; the author is not checked. */
  function CreatePost(db: Db, userId: nat, image: string, caption: string, now: int): (r: Step<Post>)
    ensures r.reply.Success?
    ensures r.db == db.(posts := db.posts + [r.reply.value])
    ensures var p := r.reply.value;
      && p.id == |db.posts| + 1 && p.userId == userId && p.image == image && p.caption == caption
      && p.likeCount == Some(0) && p.likedByCurrentUser.None? && p.comments == [] && p.createdAt == now
  {
    var p := Post(|db.posts| + 1, userId, image, caption, Some(0), None, [], now);
    Step(db.(posts := db.posts + [p]), Success(p))
  }

  /** `post.like_count || 0` */
  function LikesOf(p: Post): (n: nat)
    ensures p.likeCount.Some? ==> n == p.likeCount.value
    ensures n == 0 <==> p.likeCount.None? || p.likeCount.value == 0
  {
    if p.likeCount.Some? then p.likeCount.value else 0
  }

  /** `likePost`: one more like and the shared flag set; the viewer is ignored. */
  function LikePost(db: Db, userId: nat, postId: nat): (r: Step<()>)
    ensures r.reply.Failure? <==> !KnownPost(db.posts, postId)
    ensures r.reply.Failure? ==> r == Step(db, Failure(PostNotFound))
    ensures r.reply.Success? ==>
      var i := PostIndex(db.posts, postId).value;
      && r.db == db.(posts := r.db.posts)
      && |r.db.posts| == |db.posts|
      && (forall j :: 0 <= j < |db.posts| && j != i ==> r.db.posts[j] == db.posts[j])
      && LikesOf(r.db.posts[i]) == LikesOf(db.posts[i]) + 1
      && r.db.posts[i].likeCount == Some(LikesOf(db.posts[i]) + 1)
      && r.db.posts[i].likedByCurrentUser == Some(true)
      && r.db.posts[i].(likeCount := None, likedByCurrentUser := None)
         == db.posts[i].(likeCount := None, likedByCurrentUser := None)
  {
    match PostIndex(db.posts, postId)
    case None => Step(db, Failure(PostNotFound))
    case Some(i) =>
      var p := db.posts[i].(likeCount := Some(LikesOf(db.posts[i]) + 1), likedByCurrentUser := Some(true));
      Step(db.(posts := db.posts[i := p]), Success(()))
  }

  /** `unlikePost`: one like fewer, clamped at zero, and the shared flag cleared. */
  function UnlikePost(db: Db, userId: nat, postId: nat): (r: Step<()>)
    ensures r.reply.Failure? <==> !KnownPost(db.posts, postId)
    ensures r.reply.Failure? ==> r == Step(db, Failure(PostNotFound))
    ensures r.reply.Success? ==>
      var i := PostIndex(db.posts, postId).value;
      && r.db == db.(posts := r.db.posts)
      && |r.db.posts| == |db.posts|
      && (forall j :: 0 <= j < |db.posts| && j != i ==> r.db.posts[j] == db.posts[j])
      && LikesOf(r.db.posts[i]) == (if LikesOf(db.posts[i]) == 0 then 0 else LikesOf(db.posts[i]) - 1)
      && r.db.posts[i].likeCount == Some(ClampedDecrement(LikesOf(db.posts[i])))
      && r.db.posts[i].likedByCurrentUser == Some(false)
      && r.db.posts[i].(likeCount := None, likedByCurrentUser := None)
         == db.posts[i].(likeCount := None, likedByCurrentUser := None)
  {
    match PostIndex(db.posts, postId)
    case None => Step(db, Failure(PostNotFound))
    case Some(i) =>
      var p := db.posts[i].(likeCount := Some(ClampedDecrement(LikesOf(db.posts[i]))),
                            likedByCurrentUser := Some(false));
      Step(db.(posts := db.posts[i := p]), Success(()))
  }

  /** What `addComment` returns: the comment and its author as stored, with
      the password (the lookup is not stripped), or nothing if unknown. */
  datatype PostedComment = PostedComment(comment: Comment, user: Option<User>)

  /** `addComment`: appends a comment with id length + 1 and pushes its id on
      the end of that post's comment list. */
  function AddComment(db: Db, userId: nat, postId: nat, content: string, now: int): (r: Step<PostedComment>)
    ensures r.reply.Failure? <==> !KnownPost(db.posts, postId)
    ensures r.reply.Failure? ==> r == Step(db, Failure(PostNotFound))
    ensures r.reply.Success? ==>
      var i := PostIndex(db.posts, postId).value;
      var c := r.reply.value.comment;
      && c == Comment(|db.comments| + 1, postId, userId, content, now)
      && r.db.comments == db.comments + [c]
      && r.db.posts == db.posts[i := db.posts[i].(comments := db.posts[i].comments + [c.id])]
      && r.db.users == db.users && r.db.edges == db.edges && r.db.session == db.session
      && r.reply.value.user == FindUser(db.users, userId)
  {
    match PostIndex(db.posts, postId)
    case None => Step(db, Failure(PostNotFound))
    case Some(i) =>
      var c := Comment(|db.comments| + 1, postId, userId, content, now);
      var p := db.posts[i].(comments := db.posts[i].comments + [c.id]);
      Step(db.(posts := db.posts[i := p], comments := db.comments + [c]),
           Success(PostedComment(c, FindUser(db.users, userId))))
  }
}
