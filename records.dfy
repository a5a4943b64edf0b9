/**
 * The records the store keeps and returns (the field lists of `src/types.ts`).
 * Every id is the number whose decimal string the source stores; see Decimal.
 */
module Records {
  import opened Wrappers

  /** A stored account, password included. */
  datatype User = User(
    id: nat,
    username: string,
    fullname: string,
    email: string,
    profilePicture: string,
    bio: string,
    password: string,
    followerCount: nat,
    followingCount: nat)

  /** An account as handed out: the password is gone, and some listings add
      whether the session user follows it. */
  datatype Profile = Profile(
    id: nat,
    username: string,
    fullname: string,
    email: string,
    profilePicture: string,
    bio: string,
    followerCount: nat,
    followingCount: nat,
    isFollowing: Option<bool>)

  /** A stored post; `comments` lists the ids of its comments in insertion
      order. `likeCount` and `likedByCurrentUser` are optional fields. */
  datatype Post = Post(
    id: nat,
    userId: nat,
    image: string,
    caption: string,
    likeCount: Option<nat>,
    likedByCurrentUser: Option<bool>,
    comments: seq<nat>,
    createdAt: int)

  datatype Comment = Comment(
    id: nat,
    postId: nat,
    userId: nat,
    content: string,
    createdAt: int)

  /** One follow relationship: `follower` follows `following`. */
  datatype Edge = Edge(follower: nat, following: nat)

  /** The errors the store throws, one per message string. */
  datatype ApiError = InvalidCredentials | UsernameTaken | EmailTaken | UserNotFound | PostNotFound
  {
    function Message(): string {
      match this
      case InvalidCredentials => "Invalid credentials"
      case UsernameTaken => "Username already taken"
      case EmailTaken => "Email already registered"
      case UserNotFound => "User not found"
      case PostNotFound => "Post not found"
    }
  }

  /** The placeholder bearer token every successful login or register returns. */
  const MockToken: string := "mock-jwt-token"

  /** What login and register return: the password-free account and a token. */
  datatype Auth = Auth(user: Profile, token: string)

  /** `const { password: _, ...rest } = user`: the account without its password. */
  function Strip(u: User): Profile {
    Profile(u.id, u.username, u.fullname, u.email, u.profilePicture, u.bio,
            u.followerCount, u.followingCount, None)
  }

  /** Stripping forgets the password and nothing else: two accounts give the
      same profile exactly when they agree on every other field. */
  lemma StripForgetsOnlyPassword(u: User, v: User)
    ensures Strip(u) == Strip(v) <==> u.(password := v.password) == v
    ensures Strip(u).id == u.id && Strip(u).isFollowing.None?
  {
  }

  /** Distinct errors carry distinct messages, so the message identifies the error. */
  lemma MessageIdentifiesError(a: ApiError, b: ApiError)
    ensures a.Message() == b.Message() <==> a == b
  {
    if a != b {
      var ma, mb := a.Message(), b.Message();
      assert ma[0] != mb[0] || ma[1] != mb[1] || |ma| != |mb|;
    }
  }
}
