# Instagram clone: mock data service and session state, in Dafny

This project models the core of a small Instagram-style web client. Four parts are covered.

- **The mock data service** (`src/server/mockServer.ts`). This is the in-memory service that answers every api call when the real backend cannot be reached. It holds:
  - four collections: accounts, posts, comments and follow edges;
  - the seed data those collections start with;
  - one local computation per operation (the `fallbackFn` of each api method).
- **The session state machine** (`src/contexts/AuthContext.tsx`). It is a four-field record (`isAuthenticated`, `user`, `loading`, `error`) next to the browser's two storage slots, `instagram_user` and `instagram_token`. Its transitions are check-session, login, register, logout and clear-error.
- **Image validation** (`validateImageFile` in `src/utils/imageUtils.ts`). It decides whether a chosen file is acceptable from its type and its size.
- **The route guard** (`src/components/RouteGuard.tsx`). It decides whether a route shows a spinner, redirects, or renders its page.

## How the model is organised

- `records.dfy` has the record types (account, profile, post, comment, follow edge) and the service's error messages. `store.dfy` has the whole service state as one value, `Store.Db`.
  - Each read-only operation is a function of the state.
  - Each mutating operation is a function from the old state to a `Step`, which holds the new state and the reply. Every error path is a `Failure` reply that leaves the state untouched.
- `store_laws.dfy` states the consistency rules the service keeps, as `Store.Valid`, and proves them:
  - ids equal positions;
  - edges join existing accounts;
  - no edge is stored twice;
  - each account's two counters equal the number of edges into and out of it;
  - each post's comment-id list lists exactly its comments, in order.

  The seed data satisfies these rules and every mutation preserves them. The file also holds the round-trip and idempotence laws.
- `mock_server.dfy` is the service as the source has it: one object, `MockServer.Api`, whose fields are the collections.
  - The mutating methods push onto, assign into and splice those fields.
  - Each method is proved to produce exactly the `Store` function's new state and reply, and to keep `Store.Valid`.
- `auth_context.dfy` states the session transitions as functions over a `Browser` value (the state record plus both storage slots). The class `AuthContext.AuthProvider` performs them in place.
  - The awaited api call is not made. Its outcome is an input, `ApiOutcome`. `OutcomeOf` turns a reply of the mock service into such an outcome.
  - The failure branch of login and register spreads the state captured when the handler was called, as the source's closure does.
- `image_utils.dfy` and `route_guard.dfy` model the two small pure functions. The route-guard lemmas connect the guard to the session transitions.
- `decimal.dfy` renders numbers the way `String(n)` does. It proves that rendering injective, so comparing numeric ids is the same as comparing the source's id strings. `seqs.dfy` has `find`/`findIndex`/`filter`. `ordering.dfy` has the newest-first sort.

Some behaviours of the code that are easy to overlook:
- **Feed order.** The feed is sorted non-increasingly by `created_at`. Posts with equal timestamps can sit next to each other in either order as far as the model is concerned.
- **Like then unlike.** Together they restore the like counter. The "liked" flag is `false` afterwards, whatever it was before (`StoreLaws.LikeThenUnlike`).
- **Username uniqueness.** Renaming an account to the empty username skips the uniqueness check, so two accounts can share `""` (`StoreLaws.EmptyUsernameSkipsUniqueness`).
- **Missing authors.** A comment whose author is missing is shown with the first account as its author. A post whose author is missing is listed without any join.
- **`addComment` reply.** The author record in the reply is not stripped, so it still carries the password.

## Model

| member | source | states |
|---|---|---|
| Decimal.DecimalString | src/server/mockServer.ts:198 | `String(n)` of a count is a non-empty run of digits with no leading zero |
| Decimal.ParseDecimalString | src/server/mockServer.ts:198 | reading a rendered id back as a number gives the number it was rendered from |
| Decimal.DecimalStringInjective | src/server/mockServer.ts:327-328 | two ids render to the same string exactly when they are the same number, so `u.id === userId` on strings is equality of numbers |
| Records.MessageIdentifiesError | src/server/mockServer.ts:165-195 | two errors have the same message exactly when they are the same error, so the thrown message identifies the failure |
| Seqs.IndexWhere | src/server/mockServer.ts:260 | `findIndex`: no index exactly when no element matches; otherwise the index of the first match |
| Seqs.Filter | src/server/mockServer.ts:454-455 | `filter`: keeps exactly the matching elements, never more than the input |
| Seqs.FilterMultiset | src/server/mockServer.ts:454-455 | `filter` keeps every matching element exactly as often as it occurs and adds none |
| Ordering.SortNewestFirst | src/server/mockServer.ts:404-406 | the sorted posts are newest first and are a permutation of the input |
| Store.UserIndex | src/server/mockServer.ts:327-330 | the account lookup by id finds the first account with that id, or reports that none has it |
| Store.FindUser | src/server/mockServer.ts:557 | `users.find` by id gives an account exactly when one has that id, and then the first account in table order with that id |
| Store.PostIndex | src/server/mockServer.ts:496 | `posts.find` by id: no index exactly when no post has the id; otherwise the first post with it |
| Records.StripForgetsOnlyPassword | src/server/mockServer.ts:171 | `Records.Strip`, the `{ password: _, ...rest }` projection, drops exactly the password: two accounts give the same profile exactly when they agree on every field but the password; the profile keeps the id and carries no `is_following` |
| Store.ClampedDecrementIsMax | src/server/mockServer.ts:379 | `Store.ClampedDecrement` is `Math.max(0, c - 1)`: at most one below `c`, never below zero, and equal to `c` exactly when `c` is zero |
| Store.LikesOf | src/server/mockServer.ts:499 | `like_count \|\| 0`: a present count is used as it is, and the result is zero exactly when the count is missing or zero |
| Store.NewUser | src/server/mockServer.ts:197-207 | the new account has id n + 1, the given username, email, full name and password, an empty bio, zero counters, and the avatar URL `https://i.pravatar.cc/150?img=` followed by `String(n + 10)`, whose digits read back as n + 10 |
| Store.FollowFlag | src/server/mockServer.ts:235-240 | `is_following` is present exactly when a session user is stored, and then true exactly when that user follows the account |
| Store.ContainsIffOccurs | src/server/mockServer.ts:312 | `includes` holds exactly when the query occurs at some offset of the string |
| Store.StrippedSelectionSound | src/server/mockServer.ts:311-314 | every profile in the stripped `filter` result is the stripped copy of an account the filter selects |
| Store.StrippedSelectionComplete | src/server/mockServer.ts:311-314 | every account the filter selects appears, stripped, in the result |
| Store.EdgeIndex | src/server/mockServer.ts:370-372 | the edge lookup finds the first stored copy of the edge, or reports that it is absent |
| Store.Thread | src/server/mockServer.ts:427-428 | a post's comments are exactly the stored comments naming that post |
| Store.Login | src/server/mockServer.ts:165-173 | fails with "Invalid credentials" exactly when no account has both the email and the password; otherwise returns the first such account in table order, without its password, with the token `mock-jwt-token` |
| Store.Register | src/server/mockServer.ts:185-213 | username taken is checked before email taken, and either failure changes nothing; on success exactly one account is appended, the `NewUser` record for the current length (next id, the given fields, the numbered avatar, empty bio, zero counters), and it is returned without password |
| Store.GetUser | src/server/mockServer.ts:226-248 | fails with "User not found" exactly when no account has the username; otherwise returns the first account in table order with that username, without password, with `is_following` present exactly when a session user is stored and then true exactly when that user follows the account |
| Store.ApplyPatch | src/server/mockServer.ts:279-282 | each of the five patchable fields takes the patch's value when supplied and keeps its old value when absent; the id, the password and the counters never change |
| Store.UpdateUserProfile | src/server/mockServer.ts:257-296 | unknown id, username clash and email clash fail in that order without any change; a clash needs a non-empty, changed value held by another id; on success only that account changes, the stored session copy is refreshed exactly when it is that account, and the updated account is returned without password |
| Store.SearchUsers | src/server/mockServer.ts:308-315 | the result is the stripped `filter` of the accounts whose username or full name contains the query: each matching account once, in table order, and nothing else |
| Store.BumpCounters | src/server/mockServer.ts:344-348 | the follower's following count and the target's follower count go up by one; nothing else in any account changes |
| Store.DropCounters | src/server/mockServer.ts:378-382 | the same two counters go down by one, clamped at zero; nothing else changes |
| Store.RemoveAt | src/server/mockServer.ts:376 | `splice(k, 1)` removes exactly the element at k and keeps the others in order |
| Store.FollowUser | src/server/mockServer.ts:324-352 | fails with "User not found" exactly when either id is unknown, changing nothing; an existing edge is a no-op; otherwise the edge is appended and both counters go up |
| Store.UnfollowUser | src/server/mockServer.ts:361-386 | fails with "User not found" exactly when either id is unknown; a missing edge is a no-op, not an error; otherwise the first copy of the edge is spliced out and both counters drop, clamped at zero |
| Store.CommentAuthor | src/server/mockServer.ts:430-431 | a comment is shown with the first account carrying its author id, without password, or with the first account of the table when the author is missing |
| Store.JoinComments | src/server/mockServer.ts:427-436 | each comment of a post is kept in order and paired with its author as `CommentAuthor` gives it |
| Store.FeedEntry | src/server/mockServer.ts:407-441 | a post whose author exists is joined with the first account carrying that id (no password, `is_following` false without a session) and with its comments in collection order, each paired with `CommentAuthor` (so a missing comment author shows as the first account); a post without author comes back bare |
| Store.GetPosts | src/server/mockServer.ts:396-442 | every post appears exactly as often as stored, newest first, each joined as `FeedEntry` says |
| Store.PostsBy | src/server/mockServer.ts:454-455 | keeps exactly that account's posts, each as often as stored |
| Store.GetUserPosts | src/server/mockServer.ts:451-457 | exactly that account's posts, each as often as stored, newest first, not joined |
| Store.CreatePost | src/server/mockServer.ts:466-481 | never fails; appends one post with the next id, the given author, image and caption, zero likes, no comments and the current time |
| Store.LikePost | src/server/mockServer.ts:493-503 | fails with "Post not found" exactly when the id is unknown; otherwise only that post changes: its `like_count` is written as one more than before (a missing count counts as 0) and the shared flag set to true |
| Store.UnlikePost | src/server/mockServer.ts:515-525 | fails with "Post not found" exactly when the id is unknown; otherwise only that post changes: its `like_count` is always written, as one fewer clamped at zero, and the shared flag set to false |
| Store.AddComment | src/server/mockServer.ts:538-559 | fails with "Post not found" exactly when the id is unknown; otherwise appends the comment with the next id and pushes its id on the end of that post's list, returning the comment with the author record as stored |
| StoreLaws.SeedCounters | src/server/mockServer.ts:7-135 | in the seed data every account's counters equal its numbers of incoming and outgoing edges |
| StoreLaws.SeedThread | src/server/mockServer.ts:43-127 | each seed post's comment-id list is exactly the ids of the seed comments on that post, in order |
| StoreLaws.SeedValid | src/server/mockServer.ts:7-135 | the seed data satisfies every consistency rule, and no two seed accounts share a username or an email |
| StoreLaws.UserIndexIsPosition | src/server/mockServer.ts:198 | since ids are assigned as length + 1 and nothing is deleted, the account with id n sits at position n - 1 |
| StoreLaws.ThreadSnoc | src/server/mockServer.ts:552-553 | appending a comment extends its post's thread by exactly that comment and leaves other threads alone |
| StoreLaws.RegisterKeepsValid | src/server/mockServer.ts:185-213 | registering keeps every consistency rule and keeps usernames and emails unique |
| StoreLaws.BumpKeepsCounters | src/server/mockServer.ts:337-349 | appending an edge and bumping the two counters keeps every counter equal to the edge count |
| StoreLaws.FollowKeepsValid | src/server/mockServer.ts:324-352 | following keeps every consistency rule, counters included, also for a self-follow |
| StoreLaws.DropKeepsCounters | src/server/mockServer.ts:374-383 | splicing out an edge and dropping the two counters keeps every counter equal to the edge count |
| StoreLaws.DropEdgeKeepsValid | src/server/mockServer.ts:374-383 | removing any stored edge with its counter updates keeps every consistency rule |
| StoreLaws.UnfollowRemovesEdge | src/server/mockServer.ts:366-383 | under the id rule, an unfollow that finds its edge at k splices out exactly that edge and drops the counters of the accounts at positions a - 1 and b - 1 |
| StoreLaws.UnfollowOnEdgeKeepsValid | src/server/mockServer.ts:370-383 | an unfollow that finds its edge keeps every consistency rule |
| StoreLaws.UnfollowKeepsValid | src/server/mockServer.ts:361-386 | unfollowing keeps every consistency rule |
| StoreLaws.UnfollowClampInactive | src/server/mockServer.ts:379-382 | while the counters agree with the edges, an unfollow that finds its edge finds both counters positive, so the clamp never acts |
| StoreLaws.UpdateKeepsValid | src/server/mockServer.ts:257-296 | a profile update keeps every consistency rule |
| StoreLaws.UpdateKeepsDistinct | src/server/mockServer.ts:264-276 | an update whose new username and email are not empty keeps usernames and emails unique |
| StoreLaws.EmptyUsernameSkipsUniqueness | src/server/mockServer.ts:265-267 | renaming two different accounts to the empty username both succeed and leave two accounts with the same username |
| StoreLaws.CreatePostKeepsValid | src/server/mockServer.ts:466-481 | creating a post keeps every consistency rule |
| StoreLaws.ReplacePostKeepsValid | src/server/mockServer.ts:499-500 | changing a post in place without touching its id or its comment list keeps every consistency rule |
| StoreLaws.LikeKeepsValid | src/server/mockServer.ts:493-525 | liking and unliking keep every consistency rule |
| StoreLaws.AppendCommentKeepsLists | src/server/mockServer.ts:552-553 | pushing the comment and its id keeps every post's id list equal to its thread |
| StoreLaws.AppendCommentKeepsValid | src/server/mockServer.ts:544-553 | a comment with the next id on an existing post, with its id pushed on that post's list, keeps every consistency rule |
| StoreLaws.AddCommentKeepsValid | src/server/mockServer.ts:538-559 | adding a comment keeps every consistency rule |
| StoreLaws.FollowIdempotent | src/server/mockServer.ts:333-349 | following twice gives the same state and reply as following once |
| StoreLaws.UnfollowIdempotent | src/server/mockServer.ts:370-383 | while no edge is stored twice, unfollowing twice gives the same state and reply as unfollowing once |
| StoreLaws.EdgeIndexOfAppended | src/server/mockServer.ts:339-342 | a newly appended edge is found at the end of the list |
| StoreLaws.DropUndoesBump | src/server/mockServer.ts:344-382 | dropping the two counters after bumping them gives back every account unchanged |
| StoreLaws.FollowThenUnfollowRestores | src/server/mockServer.ts:324-386 | following an account not yet followed and then unfollowing it restores the edge list and every counter exactly |
| StoreLaws.LikeThenUnlike | src/server/mockServer.ts:493-525 | like then unlike restores the like counter (a missing one comes back as 0) and leaves the flag false; nothing else changes |
| StoreLaws.FeedCommentsFollowIdList | src/server/mockServer.ts:427-428 | in the feed, a joined post's comments are exactly the ones its id list names, in that order |
| StoreLaws.RegisterThenLogin | src/server/mockServer.ts:165-213 | after a successful register, logging in with the same email and password returns the new account and token, and any other password is refused |
| StoreLaws.CreatedPostListed | src/server/mockServer.ts:451-481 | a freshly created post is listed among its author's posts exactly once |
| MockServer.Api.constructor | src/server/mockServer.ts:7-135 | the collections start as the seed data, which satisfies every consistency rule |
| MockServer.Api.Login | src/server/mockServer.ts:165-173 | answers as `Store.Login` on the current collections: failure exactly when no account matches both fields |
| MockServer.Api.Register | src/server/mockServer.ts:185-213 | pushes the new account onto the collection; new collections and reply are those of `Store.Register`, and the consistency rules still hold |
| MockServer.Api.GetUser | src/server/mockServer.ts:226-248 | answers as `Store.GetUser`: failure exactly when no account has the username |
| MockServer.Api.UpdateUserProfile | src/server/mockServer.ts:257-296 | assigns the merged account in place and refreshes the stored session copy; result as `Store.UpdateUserProfile`, rules kept |
| MockServer.Api.SearchUsers | src/server/mockServer.ts:308-315 | answers as `Store.SearchUsers`: the stripped matching accounts, once each, in table order |
| MockServer.Api.FollowUser | src/server/mockServer.ts:324-352 | pushes the edge and bumps both counters in place; result as `Store.FollowUser`, rules kept |
| MockServer.Api.UnfollowUser | src/server/mockServer.ts:361-386 | splices the edge out and drops both counters in place; result as `Store.UnfollowUser`, rules kept |
| MockServer.Api.GetPosts | src/server/mockServer.ts:396-442 | answers as `Store.GetPosts`: one entry per post, newest first |
| MockServer.Api.GetUserPosts | src/server/mockServer.ts:451-457 | answers as `Store.GetUserPosts`: exactly that account's posts, newest first |
| MockServer.Api.CreatePost | src/server/mockServer.ts:466-481 | pushes the new post; result as `Store.CreatePost`, rules kept |
| MockServer.Api.LikePost | src/server/mockServer.ts:493-503 | updates the post in place; result as `Store.LikePost`, rules kept |
| MockServer.Api.UnlikePost | src/server/mockServer.ts:515-525 | updates the post in place; result as `Store.UnlikePost`, rules kept |
| MockServer.Api.AddComment | src/server/mockServer.ts:538-559 | pushes the comment and its id in place; result as `Store.AddComment`, rules kept |
| AuthContext.OutcomeOf | src/contexts/AuthContext.tsx:62-67 | a reply from the service becomes success with its user and token, or failure carrying exactly the error's message |
| AuthContext.AfterCheckAuth | src/contexts/AuthContext.tsx:23-42 | the session is authenticated exactly when both slots hold something truthy, and then its user is the stored one; otherwise it is signed out with no user; loading false, error cleared, storage untouched |
| AuthContext.AfterBegin | src/contexts/AuthContext.tsx:48 | starting a request sets loading and clears the error, keeping the session fields |
| AuthContext.AfterSettle | src/contexts/AuthContext.tsx:50-68 | on success both slots are written and the session is that user; on failure storage is untouched, the session fields come from the captured state, loading is false and the error is the message |
| AuthContext.AfterRequest | src/contexts/AuthContext.tsx:47-69 | with nothing in between, a successful login or register stores the user and the token and signs that user in with loading false and no error; a failed one leaves the session and storage as they were, with loading false and the error set |
| AuthContext.AfterLogout | src/contexts/AuthContext.tsx:95-105 | logout empties both slots and signs out |
| AuthContext.AfterClearError | src/contexts/AuthContext.tsx:107-109 | only the error is cleared |
| AuthContext.ReloadAfterSuccess | src/contexts/AuthContext.tsx:24-61 | after a successful request with a non-empty token, a reload restores exactly the same session |
| AuthContext.EmptyTokenLostOnReload | src/contexts/AuthContext.tsx:27 | a session started with an empty token is not restored on reload |
| AuthContext.ReloadAfterLogout | src/contexts/AuthContext.tsx:95-105 | after logout a reload finds no session |
| AuthContext.FailureKeepsSession | src/contexts/AuthContext.tsx:62-68 | a failed request keeps the session and stores nothing |
| AuthContext.TransitionsKeepReloadStable | src/contexts/AuthContext.tsx:22-109 | after the first check, each transition run on its own keeps the shown session equal to the one a reload would restore |
| AuthContext.StaleFailureAfterSuccess | src/contexts/AuthContext.tsx:62-68 | if a request fails after a later one succeeded, the failure puts back the signed-out state while storage holds a session, so the two disagree |
| AuthContext.LoginAgainstMockService | src/contexts/AuthContext.tsx:47-69 | logging in against the mock service authenticates exactly when some account matches (or the session already was), and a reload then agrees |
| AuthContext.AuthProvider.constructor | src/contexts/AuthContext.tsx:14-19 | the provider starts signed out, with no user, loading and no error |
| AuthContext.AuthProvider.CheckAuth | src/contexts/AuthContext.tsx:23-42 | performs `AfterCheckAuth` in place |
| AuthContext.AuthProvider.BeginRequest | src/contexts/AuthContext.tsx:48 | returns the state the handler captured and performs `AfterBegin` |
| AuthContext.AuthProvider.SettleRequest | src/contexts/AuthContext.tsx:53-68 | writes the slots and the state as `AfterSettle` says |
| AuthContext.AuthProvider.Login | src/contexts/AuthContext.tsx:47-69 | begin then settle: the new state and storage are `AfterRequest` of the old |
| AuthContext.AuthProvider.Register | src/contexts/AuthContext.tsx:71-93 | begin then settle: the new state and storage are `AfterRequest` of the old |
| AuthContext.AuthProvider.Logout | src/contexts/AuthContext.tsx:95-105 | removes both slots and resets the state, as `AfterLogout` |
| AuthContext.AuthProvider.ClearError | src/contexts/AuthContext.tsx:107-109 | clears only the error, as `AfterClearError` |
| ImageUtils.ValidateImageFile | src/utils/imageUtils.ts:26-39 | a type not starting with `image/` gives "File must be an image" whatever the size; an image is accepted exactly when its size is at most the limit times 1048576 bytes, and otherwise gets the size message |
| ImageUtils.MessagesDiffer | src/utils/imageUtils.ts:28-36 | the type message and the size message are different |
| ImageUtils.SizeErrorNamesLimit | src/utils/imageUtils.ts:35 | the number in the size message reads back as the limit in megabytes |
| ImageUtils.DefaultLimit | src/utils/imageUtils.ts:26-38 | with the default limit, 2097152 bytes is accepted and 2097153 bytes gets "Image must be smaller than 2MB" |
| RouteGuard.Guard | src/components/RouteGuard.tsx:11-36 | loading shows the spinner; a protected route without a session goes to `/login`; a public route with a session goes to `/`; the page renders exactly when not loading and the route's requirement equals the session state; the requirement defaults to protected |
| RouteGuard.SpinnerUntilChecked | src/components/RouteGuard.tsx:17-23 | before the first session check every route shows the spinner |
| RouteGuard.AfterCheckAuthOpens | src/components/RouteGuard.tsx:17-35 | after the check, a protected route renders exactly when storage holds a session, a public one exactly when it does not, and no spinner is shown |
| RouteGuard.SpinnerWhilePending | src/components/RouteGuard.tsx:17-23 | while a login or register call is pending, every route shows the spinner |
| RouteGuard.RedirectsAfterTransitions | src/components/RouteGuard.tsx:26-33 | after a successful request a public route goes to `/`; after logout a protected route goes to `/login` |

## Left out

- The HTTP attempt in `fetchWithFallback` is not modelled (mockServer.ts:141-160). The model always takes the local fallback, which is the behaviour when the backend is unreachable. The network, `console.warn` and the artificial `delay` are left out.
- `Date.now()` in `createPost` and `addComment` becomes the parameter `now`.
- Reading and writing `localStorage` is modelled as the stored values only. JSON encoding and decoding are left out: the user slot holds a profile or nothing, never an arbitrary string.
- Ids are natural numbers. Their decimal strings are compared through `Decimal.DecimalStringInjective`. An id string that is not the rendering of a number (such as `"01"` or `"abc"`) cannot be passed, so lookups with such ids are not modelled.
- Replies are values. The source hands some callers references to the stored objects: the new post `createPost` returns (mockServer.ts:480), the entries of `getUserPosts` (mockServer.ts:454-456) and the bare entries of `getPosts` (mockServer.ts:440). Later `likePost`, `unlikePost` and `addComment` calls change those objects in place, and that aliasing is not modelled: a reply the model returns never changes afterwards.
- Concurrency between api calls is not modelled: every operation runs to completion. The one interleaving that matters for the session, a failure settling after another request, is shown by `AuthContext.StaleFailureAfterSuccess`.
- The browser's `instagram_user` slot appears twice, with no link between the copies: once as the service's `Store.Db.session` (the field `MockServer.Api.storedUser`), once as `AuthContext.Browser.storedUser`. So a login or register in the provider does not set the session the service's `getUser` and `getPosts` read for `is_following`; a logout does not clear it; and the copy `updateUserProfile` refreshes is not the one `checkAuth` restores on reload.
- AuthContext.AuthProvider.Login takes the outcome of `api.login` as an input instead of calling the service. `AuthContext.OutcomeOf` and `AuthContext.LoginAgainstMockService` connect that outcome to the mock service.
- AuthContext.AuthProvider.Register takes the outcome of `api.register` as an input, for the same reason.
- AuthContext.AuthProvider.ClearError clears the error in the current state. The source spreads the state captured at render time, which is the same state unless a request settles in between.
- Store.UpdateUserProfile accepts only the five patchable fields. A patch carrying other keys at run time (an id, a password, counters) is not modelled.
- ImageUtils.ValidateImageFile takes the size limit in whole megabytes. Fractional or negative limits, and their rendering in the message, are not modelled.
- Ordering.SortNewestFirst: the relative order of posts with equal timestamps is not stated. The sort is stable, but stability is not proved.
- `fileToDataUrl` is left out, because it depends on the browser's FileReader. `useAuth`, the pages, the layout and the rest of the user interface are left out as well.
