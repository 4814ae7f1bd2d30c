# social.py in Dafny

A model of the in-memory social network in `social.py`. The model covers:

- users who publish posts and follow each other;
- posts that collect likes and comments;
- the directory (`SocialMediaApp`), which registers users, keeps the list of published posts and answers three feed queries:
  - the global feed, newest first;
  - one user's feed, newest first;
  - the trending feed, the ten posts with the most likes plus comments.

The files are:

- `sequences.dfy` (module `Sequences`): the list operations the classes apply to their lists.
  - `AddIfAbsent` is the guarded `append` of `follow` and `like`.
  - `RemoveFirst` is Python's `list.remove`.
  - Both come with lemmas about duplicates, membership and idempotence.
- `sorting.dfy` (module `Sorting`): Python's `sorted(..., reverse=True)` and its `[:n]` slice.
  - The result is specified as the unique stable descending sort: larger keys first, equal keys in input order.
  - It is described by the permutation of input positions it applies.
  - Lemmas show that it is a permutation, that keys never increase along it, that ties keep their input order, and that the top `n` are its prefix.
- `social.dfy` (module `Social`): the classes `User`, `Post`, `Comment` and `SocialMediaApp`, with fields and methods as in the source.
  - `FollowGraph(S)` is the follow-graph invariant over a set of users. `Follow` and `Unfollow` preserve it.
  - The three queries are functions over the directory's state. Lemmas about them sit next to them.
- `scenario.dfy` (module `Demo`): the example run at the bottom of `social.py`, with the feeds and lists it prints.

Modelling choices:

- **Object identity.** Users, posts and comments are Dafny objects. Python's `in`, `!=` and `remove` compare these instances by identity, because the classes define no `__eq__`. Dafny's reference equality is the same relation, so the model keeps identity instead of switching to ids.
- **Mutable state.** Mutable lists are `seq` fields that the methods reassign. The user dictionary is a `map<int, User>` field. Attributes that are never reassigned are `const`.
- **What each method may change.** Each method's `modifies` clause names the exact fields it changes (for example ``this`following`` and ``other`followers``). Every other field of every object is therefore unchanged.
- **Timestamps.** `datetime.datetime.now()` becomes a `timestamp: nat` argument supplied by the caller. The example run uses times 1, 2, 3 for the posts and 4 for the comment.
- **Optional arguments.** Python's default `None` arguments become `Option` values.

Points where the code's behaviour is easy to misread:

- **Alice likes Bob's post.** This happens at social.py:116, so the example run's trending scores are 2, 1 and 0.
- **`unfollow` can raise.** It raises `ValueError` at social.py:25 when `other.followers` lacks the mirror entry. `Unfollow` requires that entry, and a consistent follow graph always has it.
- **`add_post` checks nothing.** It does not check that the author is registered (social.py:82-83).

## Model

| member | source | states |
|---|---|---|
| Sequences.AddIfAbsent | social.py:18-19 | the guarded append: `x` is in the result; nothing but `x` is added and nothing is lost; the length grows by one exactly when `x` was absent; the old list is a prefix; a duplicate-free list stays duplicate-free |
| Sequences.AddIfAbsentIdempotent | social.py:41-43 | adding the same element twice is the same as adding it once (a repeated like or follow is a no-op) |
| Sequences.IndexOf | social.py:24 | the first position holding `x`: it holds `x`, and no earlier position does |
| Sequences.RemoveFirst | social.py:24-25 | `list.remove` on a member drops exactly its first occurrence and keeps every other element in place; on a non-member it is the identity |
| Sequences.RemoveFirstContents | social.py:46-47 | as a multiset, removal takes away one occurrence of `x` and nothing else |
| Sequences.RemoveFirstMembers | social.py:46-47 | every element other than `x` survives removal, and removal adds nothing |
| Sequences.RemoveFirstNoDup | social.py:46-47 | on a duplicate-free list the result is duplicate-free and no longer contains `x` |
| Sequences.RemoveFirstIdempotent | social.py:45-47 | on a duplicate-free list, removing twice equals removing once (unlike and unfollow are idempotent) |
| Sequences.NoDupAppend | social.py:42-43 | appending keeps a list duplicate-free exactly when the appended element was absent and the list was duplicate-free |
| Sorting.Select | social.py:86 | picking items by a list of positions: the `k`-th output is the item at the `k`-th position |
| Sorting.Insert | social.py:86 | inserting a later position into an ordered position list keeps the order and adds exactly that position |
| Sorting.SortOrder | social.py:86 | the positions `0..n-1`, each once, ordered larger key first with ties by position |
| Sorting.SortDesc | social.py:86 | `sorted(..., reverse=True)` gives a stable descending sort of its input |
| Sorting.OrderUnique | social.py:86 | two orders over the same positions that both respect the ordering are equal |
| Sorting.StableSortUnique | social.py:86 | the stable descending sort of a list is unique |
| Sorting.SortOrderPermutes | social.py:86 | the sorted positions select exactly the items of the input, as a multiset |
| Sorting.StableSortPermutes | social.py:86 | the sort adds or drops no item: the result is a permutation of the input |
| Sorting.StableSortDescends | social.py:86 | keys never increase along the sorted result |
| Sorting.StableSortKeepsTies | social.py:86 | of two items with equal keys, the one earlier in the input comes first in the result (stability) |
| Sorting.TopDesc | social.py:97 | `sorted(..., reverse=True)[:n]` gives the first `min(n, len)` items of a stable descending sort |
| Sorting.StableTopIsPrefix | social.py:97 | the top `n` have length `min(n, len)` and are the prefix of the full stable sort |
| Sorting.StableTopBoundsRest | social.py:97 | every item left out of the top `n` has a key at most that of the last item kept |
| Sorting.SortedInputIsFixed | social.py:86 | an input whose keys already never increase is its own stable sort |
| Sorting.StableSortEqualKeys | social.py:86 | when all keys are equal the sort returns the input unchanged |
| Social.User.constructor | social.py:4-10 | a new user holds its id, name and picture, and all three lists are empty |
| Social.User.CreatePost | social.py:12-15 | returns a fresh post numbered one past the user's post count, authored by this user, with no likes or comments and `tags or []`; appends it to this user's `posts`; changes nothing else (the directory's list included) |
| Social.User.Follow | social.py:17-20 | following another user not yet followed appends on both sides; a self-follow or a repeat follow changes nothing; the follow-graph invariant is preserved and afterwards both memberships hold |
| Social.User.Unfollow | social.py:22-25 | unfollowing a followed user removes the first occurrence from both sides, leaving every other entry in place; otherwise nothing changes; in a consistent graph the invariant is preserved and afterwards neither membership holds |
| Social.FollowGraphMirrors | social.py:17-25 | in a consistent follow graph, B is in A's following exactly when A is in B's followers |
| Social.Comment.constructor | social.py:58-61 | a comment holds its user, text and time |
| Social.Post.constructor | social.py:31-39 | a new post holds its id, author, content, media, `tags or []` and time, with no likes and no comments |
| Social.Post.Like | social.py:41-43 | a like is recorded once: the user is in `likes` afterwards, the list grows only if the user was absent, and it stays duplicate-free |
| Social.Post.Unlike | social.py:45-47 | an unlike removes the first occurrence of the user and keeps every other like in place; on a duplicate-free list the user is gone afterwards and the list stays duplicate-free |
| Social.Post.AddComment | social.py:49-52 | appends exactly one fresh comment with the given user, text and time and returns it; the earlier comments are unchanged |
| Social.Post.Score | social.py:97 | definition of the trending key: the number of likes plus the number of comments |
| Social.Timestamps | social.py:86 | definition of the recency key list: the timestamp of each post, position by position |
| Social.Scores | social.py:97 | definition of the trending key list: the score of each post, position by position |
| Social.SocialMediaApp.constructor | social.py:67-69 | a new directory has no users and no posts, and every user in it is (vacuously) filed under its own id |
| Social.SocialMediaApp.CreateUser | social.py:71-77 | a new id registers a fresh user with empty lists and returns it; a taken id returns `None` and leaves the map unchanged; every user stays filed under its own id |
| Social.SocialMediaApp.GetUser | social.py:79-80 | `dict.get`: the user filed under the id, or `None` exactly when the id is unregistered; in a directory whose users are filed under their own ids, the user returned has the requested id |
| Social.SocialMediaApp.AddPost | social.py:82-83 | appends the post to the published list without further checks |
| Social.SocialMediaApp.GetAllPosts | social.py:85-86 | the published posts as a stable sort by timestamp, newest first |
| Social.SocialMediaApp.GetUserPosts | social.py:88-93 | empty for an unregistered id; otherwise the user's own posts as a stable sort by timestamp, newest first |
| Social.SocialMediaApp.GetTrendingPosts | social.py:95-97 | the first ten of the published posts stably sorted by score, highest first |
| Social.SocialMediaApp.AllPostsNewestFirst | social.py:85-86 | the global feed is a permutation of the published posts with non-increasing timestamps |
| Social.SocialMediaApp.AllPostsSameInstant | social.py:85-86 | when all published posts share one timestamp (created within one clock tick), the global feed is the publication order |
| Social.SocialMediaApp.AllPostsKeepsTies | social.py:85-86 | posts with equal timestamps keep their publication order in the global feed |
| Social.SocialMediaApp.UserPostsNewestFirst | social.py:88-93 | a registered user's feed is a permutation of that user's posts with non-increasing timestamps |
| Social.SocialMediaApp.TrendingIsTopTen | social.py:95-97 | the trending feed has `min(10, number of posts)` entries, zero-score posts included, and is the prefix of the full ranking by score |
| Social.SocialMediaApp.TrendingKeepsTies | social.py:95-97 | posts with equal scores keep their publication order in the ranking that the trending feed is cut from |
| Social.SocialMediaApp.TrendingDescends | social.py:95-97 | scores never increase along the trending feed |
| Social.SocialMediaApp.TrendingOmitsOnlyLower | social.py:95-97 | every published post left out of the trending feed scores at most as much as the last post shown |
| Demo.Contents | social.py:121-131 | definition: the content of each post, in order |
| Demo.Usernames | social.py:133-134 | definition: the username of each user, in order |
| Demo.NewestFirst | social.py:85-86 | three posts created one after another come out newest first |
| Demo.TrendingInOrder | social.py:95-97 | three posts whose scores never increase keep that order in the trending feed |
| Demo.SinglePost | social.py:88-93 | a single post is its own feed |
| Demo.FeedsOfThree | social.py:121-131 | for three published posts created in order, with non-increasing scores, the global feed is reversed and the trending feed keeps the order |
| Demo.SameInstantFeed | social.py:121-123 | had the three posts been created within one clock tick, the global feed would list them in publication order (Hello, Python, coffee) |
| Demo.FeedOfOne | social.py:125-127 | a user with one post has that post as their whole feed |
| Demo.Publish | social.py:100-112 | the three users, one post by each at times 1, 2, 3, and their publication order |
| Demo.React | social.py:114-116 | two likes and one comment give the first post one like and one comment, and the second post one like |
| Demo.Connect | social.py:118-119 | two follows give these following and follower lists and keep the follow graph of the three users consistent |
| Demo.PrintedFeeds | social.py:121-131 | for posts created at increasing times and published in that order, the global feed reverses the three posts, and the trending feed keeps them in order |
| Demo.PrintedUserFeeds | social.py:125-127 | user 1's feed is their single post; beyond the run, which never asks for one, an unregistered id gives an empty feed |
| Demo.Scenario | social.py:100-134 | the example run with creation times 1 < 2 < 3 for the posts: coffee, Python, Hello in the global feed; Hello alone in Alice's feed; Hello, Python, coffee in the trending feed; one like and one comment on Alice's post; Bob followed by Alice; Alice following Bob; and, beyond the run, an empty feed for the unregistered id 4 |

## Left out

- `datetime.datetime.now()` (social.py:39, 61) is a wall-clock call. The caller passes a `nat` timestamp instead. The example run picks distinct times 1, 2, 3; posts created within one clock tick would tie, which `Demo.SameInstantFeed` covers.
- The `__str__` methods and the printing of the example run are display only. The example run is modelled up to the values it prints.
- The contents of `media`, `profile_picture` and `tags` are never interpreted by the code. They are `Option<string>` and `seq<User>` values that are only stored.
- `if user:` in `get_user_posts` is true for every `User` instance, because the class defines neither `__bool__` nor `__len__`. The model matches on `GetUser`'s `Option` instead.
- The `ValueError` that `followers.remove` raises on an inconsistent graph is not modelled as an error path. `Unfollow` requires the mirror entry instead.
- The follow-graph invariant holds over a set of users that the caller names, because any two users can follow each other whether or not they are registered. Users outside that set carry no guarantee.
- `Social.User.Follow`: the invariant and the final memberships are promised only when both users are in the named consistent set. This is weaker than a global invariant, because nothing ties a user to such a set.
- `Social.User.Unfollow`: "neither membership holds afterwards" is promised only for users in a consistent set. With duplicates in the lists, Python's `remove` drops only one occurrence.
- `Social.Post.Unlike`: "the user is gone afterwards" is promised only when `likes` is duplicate-free. Duplicates cannot arise through `Like`.
- Concurrency: the code is single-threaded and the model is sequential.
