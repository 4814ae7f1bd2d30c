/** The in-memory social graph and content store of social.py: users who
    follow each other and publish posts, posts that collect likes and
    comments, and the directory that registers users, lists published posts
    and answers the three feed queries.

    Users, posts and comments are objects compared by identity, as Python
    compares instances of classes that do not define `__eq__`. Wall-clock
    creation times are passed in by the caller as `timestamp`. */
module Social {

  import opened Sequences
  import opened Sorting

  class User {
    const userId: int
    const username: string
    const profilePicture: Option<string>
    var posts: seq<Post>
    var followers: seq<User>
    var following: seq<User>

    constructor (userId: int, username: string, profilePicture: Option<string>)
      ensures this.userId == userId && this.username == username
      ensures this.profilePicture == profilePicture
      ensures posts == [] && followers == [] && following == []
    {
      this.userId := userId;
      this.username := username;
      this.profilePicture := profilePicture;
      posts := [];
      followers := [];
      following := [];
    }

    /** A new post numbered one past this user's post count, appended to
        this user's own list only (the directory is not told). */
    method CreatePost(content: string, media: Option<string>, tags: Option<seq<User>>, timestamp: nat)
      returns (post: Post)
      modifies this`posts
      ensures fresh(post)
      ensures post.postId == |old(posts)| + 1 && post.author == this
      ensures post.content == content && post.media == media
      ensures post.tags == (if tags.Some? then tags.value else [])
      ensures post.timestamp == timestamp
      ensures post.likes == [] && post.comments == []
      ensures posts == old(posts) + [post]
    {
      post := new Post(|posts| + 1, this, content, media, tags, timestamp);
      posts := posts + [post];
    }

    /** Follows `other` unless it is this user or is already followed; the
        edge is recorded on both sides. */
    method Follow(other: User, ghost S: set<User>)
      modifies this`following, other`followers
      ensures if other != this && other !in old(following)
              then following == old(following) + [other] &&
                   other.followers == old(other.followers) + [this]
              else following == old(following) &&
                   other.followers == old(other.followers)
      ensures this in S && other in S && old(FollowGraph(S)) ==> FollowGraph(S)
      ensures this in S && other in S && old(FollowGraph(S)) ==>
                other != this ==> other in following && this in other.followers
    {
      if other != this && other !in following {
        following := following + [other];
        other.followers := other.followers + [this];
      }
    }

    /** Stops following `other` if it is followed, removing the edge on
        both sides. Python's second `remove` raises unless the mirror entry
        is there, so that is required. */
    method Unfollow(other: User, ghost S: set<User>)
      requires other in following ==> this in other.followers
      modifies this`following, other`followers
      ensures if other in old(following)
              then following == RemoveFirst(old(following), other) &&
                   other.followers == RemoveFirst(old(other.followers), this)
              else following == old(following) &&
                   other.followers == old(other.followers)
      ensures this in S && other in S && old(FollowGraph(S)) ==>
                FollowGraph(S) && other !in following && this !in other.followers
    {
      ghost var consistent := this in S && other in S && FollowGraph(S);
      if other in following {
        ghost var was, wasFollowers := following, other.followers;
        following := RemoveFirst(following, other);
        other.followers := RemoveFirst(other.followers, this);
        if consistent {
          RemoveFirstNoDup(was, other);
          RemoveFirstNoDup(wasFollowers, this);
          forall y ensures (y in following <==> y in was && y != other) {
            RemoveFirstMembers(was, other, y);
          }
          forall y ensures (y in other.followers <==> y in wasFollowers && y != this) {
            RemoveFirstMembers(wasFollowers, this, y);
          }
        }
      } else if consistent {
        FollowGraphMirrors(S, this, other);
      }
    }
  }

  /** The follow graph over the users `S` is consistent: each user's
      `following` and `followers` lists are duplicate-free, never hold the
      user itself, stay inside `S`, and mirror each other
      (B in A.following exactly when A in B.followers). */
  ghost predicate FollowGraph(S: set<User>)
    reads S`following, S`followers
  {
    forall u | u in S ::
      && NoDup(u.following) && NoDup(u.followers)
      && u !in u.following && u !in u.followers
      && (forall v | v in u.following :: v in S && u in v.followers)
      && (forall v | v in u.followers :: v in S && u in v.following)
  }

  /** In a consistent graph the two lists are mirror images. */
  lemma FollowGraphMirrors(S: set<User>, a: User, b: User)
    requires FollowGraph(S) && a in S && b in S
    ensures b in a.following <==> a in b.followers
  {
  }

  class Comment {
    const user: User
    const text: string
    const timestamp: nat

    constructor (user: User, text: string, timestamp: nat)
      ensures this.user == user && this.text == text && this.timestamp == timestamp
    {
      this.user := user;
      this.text := text;
      this.timestamp := timestamp;
    }
  }

  class Post {
    const postId: int
    const author: User
    const content: string
    const media: Option<string>
    const tags: seq<User>
    const timestamp: nat
    var likes: seq<User>
    var comments: seq<Comment>

    /** `tags or []`: a missing tag list becomes the empty list. */
    constructor (postId: int, author: User, content: string, media: Option<string>,
                 tags: Option<seq<User>>, timestamp: nat)
      ensures this.postId == postId && this.author == author
      ensures this.content == content && this.media == media
      ensures this.tags == (if tags.Some? then tags.value else [])
      ensures this.timestamp == timestamp
      ensures likes == [] && comments == []
    {
      this.postId := postId;
      this.author := author;
      this.content := content;
      this.media := media;
      this.tags := if tags.Some? then tags.value else [];
      this.timestamp := timestamp;
      likes := [];
      comments := [];
    }

    /** Records `user`'s like once; a repeated like is a no-op. */
    method Like(user: User)
      modifies this`likes
      ensures likes == AddIfAbsent(old(likes), user)
      ensures user in likes
      ensures old(NoDup(likes)) ==> NoDup(likes)
    {
      if user !in likes {
        likes := likes + [user];
      }
    }

    /** Withdraws `user`'s like if there is one; every other like stays in
        place. */
    method Unlike(user: User)
      modifies this`likes
      ensures likes == RemoveFirst(old(likes), user)
      ensures old(NoDup(likes)) ==> NoDup(likes) && user !in likes
    {
      ghost var distinct := NoDup(likes);
      if distinct {
        RemoveFirstNoDup(likes, user);
      }
      if user in likes {
        likes := RemoveFirst(likes, user);
      }
    }

    /** Appends a new comment (any text, the empty text included) and
        returns it. */
    method AddComment(user: User, text: string, timestamp: nat) returns (comment: Comment)
      modifies this`comments
      ensures fresh(comment)
      ensures comment.user == user && comment.text == text && comment.timestamp == timestamp
      ensures comments == old(comments) + [comment]
    {
      comment := new Comment(user, text, timestamp);
      comments := comments + [comment];
    }

    /** The trending key: number of likes plus number of comments. */
    function Score(): (n: nat)
      reads this
      ensures n == |likes| + |comments|
    {
      |likes| + |comments|
    }
  }

  /** The timestamps of `ps`, position by position: the key of the two
      recency feeds. */
  function Timestamps(ps: seq<Post>): (keys: seq<int>)
    ensures |keys| == |ps|
    ensures forall i | 0 <= i < |ps| :: keys[i] == ps[i].timestamp
  {
    seq(|ps|, i requires 0 <= i < |ps| => ps[i].timestamp)
  }

  /** The scores of `ps`, position by position: the key of the trending feed. */
  function Scores(ps: seq<Post>): (keys: seq<int>)
    reads ps
    ensures |keys| == |ps|
    ensures forall i | 0 <= i < |ps| :: keys[i] == |ps[i].likes| + |ps[i].comments|
  {
    seq(|ps|, i requires 0 <= i < |ps| reads ps => ps[i].Score())
  }

  class SocialMediaApp {
    var users: map<int, User>
    var posts: seq<Post>

    constructor ()
      ensures users == map[] && posts == []
      ensures Valid()
    {
      users := map[];
      posts := [];
    }

    /** Every registered user is filed under its own id. */
    ghost predicate Valid()
      reads this
    {
      forall id | id in users :: users[id].userId == id
    }

    /** Registers a fresh user under a new id; an id already taken gives
        `None` and leaves the directory as it was. */
    method CreateUser(userId: int, username: string, profilePicture: Option<string>)
      returns (user: Option<User>)
      modifies this`users
      ensures userId in old(users) ==> user == None && users == old(users)
      ensures userId !in old(users) ==>
                && user.Some? && fresh(user.value)
                && users == old(users)[userId := user.value]
                && user.value.userId == userId && user.value.username == username
                && user.value.profilePicture == profilePicture
                && user.value.posts == [] && user.value.followers == []
                && user.value.following == []
      ensures old(Valid()) ==> Valid()
    {
      if userId !in users {
        var u := new User(userId, username, profilePicture);
        users := users[userId := u];
        user := Some(u);
      } else {
        user := None;
      }
    }

    /** `dict.get`: the user filed under `userId`, or `None`. */
    function GetUser(userId: int): (user: Option<User>)
      reads this
      ensures user.Some? <==> userId in users
      ensures user.Some? ==> user.value == users[userId]
      ensures Valid() && user.Some? ==> user.value.userId == userId
    {
      if userId in users then Some(users[userId]) else None
    }

    /** Publishes `post` at the end of the global list; neither the author
        nor duplicates are checked. */
    method AddPost(post: Post)
      modifies this`posts
      ensures posts == old(posts) + [post]
    {
      posts := posts + [post];
    }

    /** Every published post, newest first, equal timestamps in publication
        order. */
    function GetAllPosts(): (feed: seq<Post>)
      reads this
      ensures IsStableSortDesc(posts, Timestamps(posts), feed)
    {
      SortDesc(posts, Timestamps(posts))
    }

    /** The posts of one user, newest first, equal timestamps in creation
        order; empty for an unknown id. */
    function GetUserPosts(userId: int): (feed: seq<Post>)
      reads this, users.Values
      ensures userId !in users ==> feed == []
      ensures userId in users ==>
                IsStableSortDesc(users[userId].posts, Timestamps(users[userId].posts), feed)
    {
      match GetUser(userId)
      case Some(user) => SortDesc(user.posts, Timestamps(user.posts))
      case None => []
    }

    /** The ten best-scoring published posts (fewer if fewer are published),
        highest score first, equal scores in publication order. */
    function GetTrendingPosts(): (feed: seq<Post>)
      reads this, posts
      ensures IsStableTopDesc(posts, Scores(posts), 10, feed)
    {
      TopDesc(posts, Scores(posts), 10)
    }

    /** The global feed holds exactly the published posts, with
        timestamps that never increase. */
    lemma AllPostsNewestFirst()
      ensures multiset(GetAllPosts()) == multiset(posts)
      ensures forall a, b | 0 <= a < b < |GetAllPosts()| ::
                GetAllPosts()[a].timestamp >= GetAllPosts()[b].timestamp
    {
      var feed := GetAllPosts();
      StableSortPermutes(posts, Timestamps(posts), feed);
      StableSortDescends(posts, Timestamps(posts), feed, Timestamps(feed));
    }

    /** Posts published with equal timestamps keep their publication order
        in the global feed. */
    lemma AllPostsKeepsTies(i: int, j: int)
      requires 0 <= i < j < |posts| && posts[i].timestamp == posts[j].timestamp
      ensures exists a, b | 0 <= a < b < |GetAllPosts()| ::
                GetAllPosts()[a] == posts[i] && GetAllPosts()[b] == posts[j]
    {
      StableSortKeepsTies(posts, Timestamps(posts), GetAllPosts(), i, j);
    }

    /** Published posts with equal scores keep their publication order in
        the full ranking that the trending feed is cut from. */
    lemma TrendingKeepsTies(i: int, j: int)
      requires 0 <= i < j < |posts| && posts[i].Score() == posts[j].Score()
      ensures exists a, b | 0 <= a < b < |posts| ::
                SortDesc(posts, Scores(posts))[a] == posts[i] &&
                SortDesc(posts, Scores(posts))[b] == posts[j]
      ensures GetTrendingPosts() == SortDesc(posts, Scores(posts))[..Min(10, |posts|)]
    {
      var full := SortDesc(posts, Scores(posts));
      StableSortKeepsTies(posts, Scores(posts), full, i, j);
      StableSortPermutes(posts, Scores(posts), full);
      assert |full| == |posts| by {
        assert |multiset(full)| == |multiset(posts)|;
      }
      TrendingIsTopTen();
    }

    /** Posts created within one clock tick share a timestamp; when all
        published posts do, the global feed is the publication order. */
    lemma AllPostsSameInstant()
      requires forall i, j | 0 <= i < j < |posts| :: posts[i].timestamp == posts[j].timestamp
      ensures GetAllPosts() == posts
    {
      StableSortEqualKeys(posts, Timestamps(posts));
    }

    /** A user's feed holds exactly that user's posts, newest first. */
    lemma UserPostsNewestFirst(userId: int)
      requires userId in users
      ensures multiset(GetUserPosts(userId)) == multiset(users[userId].posts)
      ensures forall a, b | 0 <= a < b < |GetUserPosts(userId)| ::
                GetUserPosts(userId)[a].timestamp >= GetUserPosts(userId)[b].timestamp
    {
      var ps := users[userId].posts;
      var feed := GetUserPosts(userId);
      StableSortPermutes(ps, Timestamps(ps), feed);
      StableSortDescends(ps, Timestamps(ps), feed, Timestamps(feed));
    }

    /** The trending feed has `min(10, |posts|)` entries, zero-score
        posts included, and is the head of the stable sort by score. */
    lemma TrendingIsTopTen()
      ensures |GetTrendingPosts()| == Min(10, |posts|)
      ensures GetTrendingPosts() == SortDesc(posts, Scores(posts))[..Min(10, |posts|)]
    {
      StableTopIsPrefix(posts, Scores(posts), 10, GetTrendingPosts(), SortDesc(posts, Scores(posts)));
    }

    /** Scores never increase along the trending feed. */
    lemma TrendingDescends()
      ensures forall a, b | 0 <= a < b < |GetTrendingPosts()| ::
                GetTrendingPosts()[a].Score() >= GetTrendingPosts()[b].Score()
    {
      var feed := GetTrendingPosts();
      var full := SortDesc(posts, Scores(posts));
      StableTopIsPrefix(posts, Scores(posts), 10, feed, full);
      StableSortDescends(posts, Scores(posts), full, Scores(full));
      forall a, b | 0 <= a < b < |feed| ensures feed[a].Score() >= feed[b].Score() {
        assert feed[a] == full[a] && feed[b] == full[b];
      }
    }

    /** No published post left out of the trending feed scores above the
        last post shown. */
    lemma TrendingOmitsOnlyLower()
      ensures GetTrendingPosts() != [] ==>
                forall p | p in posts && p !in GetTrendingPosts() ::
                  p.Score() <= GetTrendingPosts()[|GetTrendingPosts()| - 1].Score()
    {
      var feed := GetTrendingPosts();
      if feed != [] {
        StableTopBoundsRest(posts, Scores(posts), 10, feed, Scores(feed));
        forall p | p in posts && p !in feed ensures p.Score() <= feed[|feed| - 1].Score() {
          var i :| 0 <= i < |posts| && posts[i] == p;
        }
      }
    }
  }
}
