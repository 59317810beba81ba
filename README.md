# Posts and profiles controllers, modelled in Dafny

This project models the two resource controllers of a small social-posting
backend (an Express and Mongoose application): the post controller
(`routes/api/posts.js`) and the profile controller (`routes/api/profile.js`).
Each handler becomes an operation over an in-memory document store.

- The caller's identity, which passport's JWT strategy attaches as
  `req.user.id`, is an explicit `caller` parameter.
- The verdict of the input validator (`validation/post`,
  `validation/profile`) is a `Validation` parameter: a flag and the
  per-field errors.
- The fresh `_id` and the current `date` that Mongoose would generate are
  parameters too.
- Each handler's first response is a `Response` value: `Ok`, `NotFound`,
  `Unauthorized`, `InvalidInput`, `AlreadyLiked`, `NotLiked`,
  `CommentNotFound`, `DuplicateHandle`, or `Threw` when the handler throws
  before touching the store.

Files:

- `common.dfy` (module `Common`): the response and validation datatypes,
  plus the parts of JavaScript that the guards depend on. These are
  truthiness, `typeof`, `===`, `Array.prototype.indexOf`, `filter` and
  `splice(k, 1)`.
- `strings.dfy` (module `StringSplit`): `split(",")` and `join(",")`, which
  turn the `skills` request field into a list.
- `posts.dfy` (module `Posts`): the post handlers.
  - Each handler that mutates the store is a pure `...Step` function whose
    contract states what it does to the collection.
  - A method of the `PostStore` class follows the handler step by step,
    updating the collection in place. Each method is proved equal to its
    `...Step` function.
- `profiles.dfy` (module `Profiles`): the profile handlers, in the same
  style.
  - The lookups are pure functions.
  - The upsert builds `profileFields` by successive conditional assignments
    (`BuildProfileFields`). The `ProfileStore.Upsert` method then either
    `$set`s those fields onto the caller's profile or inserts a new one.

The collections are sequences. The model takes the store's natural
order to be insertion order, and lets `find`/`findOne` answer in that
order. This is a modelling choice, since MongoDB does not guarantee the
natural order; `GetProfileByHandle`'s "first profile" rests on it. A
document's absent key is `None`.

The model follows the code, including these behaviours:

- A like is refused for every existing post, because the duplicate check
  is malformed.
- `skills` is split without trimming.
- A duplicate handle is reported, yet the profile is still saved.
- `GET /api/posts/:id` for an unknown id answers `null` rather than an
  error.
- A request without `skills` that the validator accepts throws, because
  the guard at line 133 is always true.

Where the code is evidently wrong, a separately named "intended" member
models the corrected behaviour, and the findings below pair the two.

## Model

| member | source | states |
|---|---|---|
| `Common.IndexOf` | routes/api/posts.js:152-154 | the result is -1 exactly when the value is absent; otherwise it is the position of the first occurrence |
| `Common.Filter` | routes/api/posts.js:111-113 | `filter`: an element is in the result exactly when it is in the input and passes; the result is never longer than the input, and is empty exactly when nothing passes |
| `Common.Splice1` | routes/api/posts.js:157 | `splice(k, 1)` drops exactly the element at `k`: the length drops by one, the others keep their order, and the multiset loses just that element |
| `StringSplit.Split` | routes/api/profile.js:134 | `split(",")` always yields at least one token |
| `StringSplit.JoinSplit` | routes/api/profile.js:134 | joining the tokens of `split(",")` with `","` gives back the original string, so nothing is trimmed or dropped |
| `StringSplit.SplitCount` | routes/api/profile.js:134 | the token count is the comma count plus one |
| `StringSplit.SplitJoin` | routes/api/profile.js:134 | splitting the join of comma-free tokens gives the tokens back |
| `Posts.ListPosts` | routes/api/posts.js:19-22 | the listing holds exactly the stored posts (a permutation) and is ordered by `date`, newest first |
| `Posts.GetPost` | routes/api/posts.js:33-38 | an absent id answers `None` (the `null` the handler sends); otherwise the answer is the stored post with that id |
| `Posts.GetPostFindsTheOne` | routes/api/posts.js:34 | with unique ids, `findById` answers the one post that has the id |
| `Posts.CreateStep` | routes/api/posts.js:50-65 | invalid input answers `InvalidInput` with the validator's errors and leaves the store alone; otherwise it appends a post owned by the caller, with the input's text, name and avatar, no likes and no comments, and ids stay unique |
| `Posts.DeleteStep` | routes/api/posts.js:78-93 | `NotFound` for an absent post; `Unauthorized` with the store unchanged when the caller is not the owner; otherwise exactly that post is removed and every other post is kept |
| `Posts.LikesWhereUser` | routes/api/posts.js:111-113 | `likes.filter(like => like.user.toString() === v)` keeps exactly the likes whose user string is strictly equal to `v` |
| `Posts.LikeGuardAsWritten` | routes/api/posts.js:110-113 | the like guard as written holds for every post and caller |
| `Posts.LikeGuardAlwaysHolds` | routes/api/posts.js:111-113 | the filter of the like guard keeps nothing: each user string is compared with a boolean |
| `Posts.LikedByIff` | routes/api/posts.js:142-145 | the unlike guard's filter is non-empty exactly when the caller is among the likers |
| `Posts.LikeStep` | routes/api/posts.js:107-125 | the like handler as written: `AlreadyLiked` for every existing post, `NotFound` otherwise, and the store never changes |
| `Posts.LikeIntendedStep` | routes/api/posts.js:110-121 | the intended like: `AlreadyLiked` exactly when the caller has liked already, otherwise the caller's like is prepended; each user likes a post at most once |
| `Posts.UnlikeStep` | routes/api/posts.js:139-164 | `NotLiked` with nothing changed when the caller has not liked; otherwise the first like by the caller is spliced out and nothing else changes |
| `Posts.AddCommentStep` | routes/api/posts.js:178-200 | invalid input leaves the store alone; an absent post answers `NotFound`; otherwise the caller's comment is prepended and the post's other fields are untouched |
| `Posts.CommentsWithId` | routes/api/posts.js:217-219 | the comment filter keeps exactly the comments with that id |
| `Posts.CommentWithIdIff` | routes/api/posts.js:216-219 | the comment guard's filter is non-empty exactly when some comment has the id |
| `Posts.RemoveCommentStep` | routes/api/posts.js:213-235 | `CommentNotFound` when no comment has the id; otherwise the first comment with that id is spliced out and the others keep their order |
| `Posts.RemoveCommentIgnoresCaller` | routes/api/posts.js:209-233 | the outcome does not depend on the caller: no ownership check is made on comments |
| `Posts.DeletedPostIsGone` | routes/api/posts.js:82-89 | after the owner deletes a post, looking up its id answers `null` |
| `Posts.LikeTwiceIsRefused` | routes/api/posts.js:110-121 | with the intended check, a second like by the same caller is refused, and the post keeps exactly one more like than before |
| `Posts.UnlikeUndoesLike` | routes/api/posts.js:120-157 | an unlike after a first (intended) like restores the collection exactly |
| `Posts.CommentsNewestFirst` | routes/api/posts.js:195 | after comments C1 then C2 the post's comments are `[C2, C1]` followed by the older ones |
| `Posts.NoHandlerAddsALike` | routes/api/posts.js:110-121 | as written, creating, deleting and liking never give a post a like when no post had one |
| `Posts.CommentsLeaveLikesAlone` | routes/api/posts.js:185-233 | adding or removing a comment leaves every post's likes unchanged |
| `Posts.UnlikeNeverSucceeds` | routes/api/posts.js:142-148 | in a store where no post has a like, every unlike answers `NotFound` or `NotLiked` and changes nothing |
| `Posts.PostStore.CreatePost` | routes/api/posts.js:46-67 | the handler's steps, updating the collection in place, agree with `CreateStep` and keep the store's invariant |
| `Posts.PostStore.DeletePost` | routes/api/posts.js:74-96 | agrees with `DeleteStep` and keeps the invariant |
| `Posts.PostStore.LikePost` | routes/api/posts.js:103-128 | agrees with `LikeStep` (as written) and keeps the invariant |
| `Posts.PostStore.LikePostIntended` | routes/api/posts.js:107-121 | agrees with `LikeIntendedStep` and keeps each post liked at most once per user |
| `Posts.PostStore.UnlikePost` | routes/api/posts.js:135-167 | agrees with `UnlikeStep` and keeps the invariant |
| `Posts.PostStore.AddComment` | routes/api/posts.js:174-202 | agrees with `AddCommentStep` and keeps the invariant |
| `Posts.PostStore.RemoveComment` | routes/api/posts.js:209-237 | agrees with `RemoveCommentStep` and keeps the invariant |
| `Profiles.FindOne` | routes/api/profile.js:31 | `findOne`: -1 exactly when no profile matches, otherwise the position of the first match; an absent filter value matches a profile that lacks the key |
| `Profiles.ProfileOfUser` | routes/api/profile.js:31-39 | `NotFound` exactly when the user has no profile; otherwise a profile of that user, the only one under one profile per user. `GET /` asks it for the caller; `GET /user/:user_id` (lines 90-97) is the same lookup for the user named in the path |
| `Profiles.GetProfileByHandle` | routes/api/profile.js:51-58 | `NotFound` exactly when no profile holds the handle; otherwise the first profile that holds it |
| `Profiles.ListProfiles` | routes/api/profile.js:70-78 | always answers every profile: the `!profiles` branch cannot fire |
| `Profiles.SkillsGuardAsWritten` | routes/api/profile.js:133 | the skills guard as written holds for every request, with or without `skills` |
| `Profiles.SocialOf` | routes/api/profile.js:137-142 | `social` holds a key exactly when that request field is truthy, with the request's value |
| `Profiles.TextFieldsOf` | routes/api/profile.js:122-131 | `user` is the caller; each text field is present exactly when the request value is truthy, with that value; `skills` and `social` are not set yet |
| `Profiles.ProfileFieldsOf` | routes/api/profile.js:122-142 | `user` is always the caller; each of handle, company, website, location, bio, status and githubUserName is present exactly when the request value is truthy, with that value; `skills` is the `split(",")` of the request's string; `social` is a fresh record; a request without `skills` throws |
| `Profiles.BuildProfileFields` | routes/api/profile.js:122-142 | the successive conditional assignments build exactly `ProfileFieldsOf` |
| `Profiles.IntendedProfileFields` | routes/api/profile.js:133-135 | with the intended guard, `skills` is present exactly when requested; otherwise the fields are those of the code as written |
| `Profiles.SetFields` | routes/api/profile.js:148-151 | `$set`: each key of the update takes the update's value and every other key keeps the stored one; `social` is replaced as a whole |
| `Profiles.HandleTaken` | routes/api/profile.js:157-158 | the handle lookup finds a profile exactly when some profile has the same `handle` key, absent included |
| `Profiles.UpsertStep` | routes/api/profile.js:113-165 | invalid input leaves the store alone. With a profile, only the caller's profile is `$set` (same id, same count, no handle check). Without one, exactly one profile equal to the fields is appended, answering `DuplicateHandle` when the handle is taken |
| `Profiles.UpsertIntendedStep` | routes/api/profile.js:144-165 | the intended upsert: a taken handle answers `DuplicateHandle` and saves nothing |
| `Profiles.UpsertKeepsOneProfilePerUser` | routes/api/profile.js:144-164 | the upsert keeps at most one profile per user and keeps ids distinct |
| `Profiles.UpsertIntendedKeepsOneProfilePerUser` | routes/api/profile.js:144-164 | the intended upsert keeps the same invariants |
| `Profiles.UpsertIntendedKeepsHandlesDistinct` | routes/api/profile.js:156-164 | when the intended upsert creates a profile, handles stay distinct |
| `Profiles.DuplicateHandleStillInserts` | routes/api/profile.js:157-164 | when another profile holds the handle, the answer is `DuplicateHandle`, yet the profile is inserted and two profiles share the handle |
| `Profiles.UpdateKeepsAbsentFields` | routes/api/profile.js:146-152 | an update answers `Ok` and keeps the count and the id. Request fields that are not truthy keep their stored values and truthy ones take the request's. `skills` and `social` are replaced |
| `Profiles.UpsertTwiceUpdatesSameProfile` | routes/api/profile.js:144-164 | two upserts by a caller without a profile: the first creates it, the second updates that same document and creates nothing |
| `Profiles.ProfileStore.Upsert` | routes/api/profile.js:109-169 | the handler's steps, updating the collection in place, agree with `UpsertStep` and keep one profile per user |
| `Profiles.ProfileStore.UpsertIntended` | routes/api/profile.js:144-165 | agrees with `UpsertIntendedStep` and keeps one profile per user |

## Left out

- `server.js` (Express setup, body parsing, the MongoDB connection,
  passport initialisation, `listen`) is process plumbing. It mounts neither
  of these routers.
- Passport JWT authentication: replaced by an explicit `caller` parameter.
- `validation/post` and `validation/profile` are not part of this model.
  Their verdict is a parameter.
- `models/Post`, `models/Profile` and `models/User` are not part of this
  model.
  - Schema defaults (empty likes and comments, `date`, generated `_id`) are
    parameters or literal empty sequences.
  - Unique indexes are not modelled.
  - An ObjectId cast error on a malformed id is not modelled, because ids
    are abstract strings.
- `populate("user", ["name", "avatar"])` joins with the User model: lookups
  return the profile alone.
- The `Profile.findOne({ user })` lookups in the delete, like and unlike
  handlers: their results are never used.
- The duplicate `GET /test` routes and the `console.log` call.
- HTTP status codes and JSON message strings. When a handler sends two
  responses (the "headers already sent" cases in the handle, user-id and
  duplicate-handle paths), only the first response and the store effect
  are modelled.
- Store failures that surface as the generic 404/400 of a `.catch`, and a
  failing `save`: the store is total in the model.
- Request fields are modelled as absent or a string. `bodyParser.json()`
  can also deliver numbers, booleans, `null`, arrays or objects, on which
  the truthiness guards and `split` behave differently (`handle: 0` is
  dropped, `skills: null` throws). The validator is assumed to check the
  types; it is not part of this model.
- `findOne({ handle: undefined })`: the driver sends `undefined` as `null`,
  which matches documents without the key. The model assumes this reading:
  an absent handle in the fields matches a profile without a handle.
- Promise sequencing and races between concurrent read-modify-write
  updates of one post's arrays: each operation is atomic.
- Posts.ListPosts: the order among posts with the same `date` is not
  stated, since the store does not fix it; only sortedness and the
  permutation are.

## Findings

| source | as written | input that shows it | evidently intended | confidence | as-written member | corrected member |
|---|---|---|---|---|---|---|
| routes/api/posts.js:110-113 | `like.user.toString() === req.user.id.length > 0` compares each user with `true`. The filter's result is an array, which is always truthy. | Any existing post, e.g. one with no likes, liked by any caller: the answer is `AlreadyLiked` and no like is ever stored. | Compare with `req.user.id` and test `.length > 0` on the filter's result. | not executed | `Posts.LikeStep` | `Posts.LikeIntendedStep` |
| routes/api/profile.js:133-135 | `typeof req.body.skills !== undefined` compares a string with `undefined`, so it is always true. | A request without `skills` that `validation/profile` accepts: `undefined.split(",")` throws a TypeError. | `typeof req.body.skills !== "undefined"`. | not executed | `Profiles.ProfileFieldsOf` | `Profiles.IntendedProfileFields` |
| routes/api/profile.js:158-164 | No `return` after the `DuplicateHandle` response, so the save at line 164 still runs. | A caller without a profile sends handle "h", which another profile holds: the answer is `DuplicateHandle`, and a second profile with handle "h" is saved. | Return after the 400 response and save nothing. | not executed | `Profiles.DuplicateHandleStillInserts` | `Profiles.UpsertIntendedStep` |
