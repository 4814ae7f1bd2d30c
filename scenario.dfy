/** The example run at the end of social.py: three users, three posts,
    two likes, one comment and two follows, with the feeds it prints.
    The posts are created at times 1, 2 and 3 and the comment at time 4. */
module Demo {

  import opened Sequences
  import opened Sorting
  import opened Social

  /** The `content` of each post, in order. */
  function Contents(ps: seq<Post>): (cs: seq<string>)
    ensures |cs| == |ps| && forall i | 0 <= i < |ps| :: cs[i] == ps[i].content
  {
    seq(|ps|, i requires 0 <= i < |ps| => ps[i].content)
  }

  /** The `username` of each user, in order. */
  function Usernames(us: seq<User>): (ns: seq<string>)
    ensures |ns| == |us| && forall i | 0 <= i < |us| :: ns[i] == us[i].username
  {
    seq(|us|, i requires 0 <= i < |us| => us[i].username)
  }

  /** Posts created one after another come out newest first. */
  lemma NewestFirst(p1: Post, p2: Post, p3: Post)
    requires p1.timestamp < p2.timestamp < p3.timestamp
    ensures SortDesc([p1, p2, p3], Timestamps([p1, p2, p3])) == [p3, p2, p1]
  {
    var posts, order := [p1, p2, p3], [2, 1, 0];
    assert CoversIndices(order, 3);
    assert Ordered(Timestamps(posts), order);
    assert order[0] == 2 && order[1] == 1 && order[2] == 0;
    assert Select(posts, order) == [p3, p2, p1];
    StableSortUnique(posts, Timestamps(posts), SortDesc(posts, Timestamps(posts)), [p3, p2, p1]);
  }

  /** Three posts whose scores already never increase trend in that order. */
  lemma TrendingInOrder(p1: Post, p2: Post, p3: Post)
    requires p1.Score() >= p2.Score() >= p3.Score()
    ensures TopDesc([p1, p2, p3], Scores([p1, p2, p3]), 10) == [p1, p2, p3]
  {
    var posts := [p1, p2, p3];
    var keys := Scores(posts);
    assert keys[0] == p1.Score() && keys[1] == p2.Score() && keys[2] == p3.Score();
    SortedInputIsFixed(posts, keys);
    var top := TopDesc(posts, keys, 10);
    StableTopIsPrefix(posts, keys, 10, top, posts);
    assert Min(10, |posts|) == 3 && posts[..3] == posts;
    assert top == posts;
  }

  /** A single post is its own feed. */
  lemma SinglePost(p: Post)
    ensures SortDesc([p], Timestamps([p])) == [p]
  {
    SortedInputIsFixed([p], Timestamps([p]));
    StableSortUnique([p], Timestamps([p]), SortDesc([p], Timestamps([p])), [p]);
  }

  /** The directory's three feeds for three published posts created
      one after another whose scores never increase. */
  lemma FeedsOfThree(app: SocialMediaApp, p1: Post, p2: Post, p3: Post)
    requires app.posts == [p1, p2, p3]
    requires p1.timestamp < p2.timestamp < p3.timestamp
    requires p1.Score() >= p2.Score() >= p3.Score()
    ensures Contents(app.GetAllPosts()) == [p3.content, p2.content, p1.content]
    ensures Contents(app.GetTrendingPosts()) == [p1.content, p2.content, p3.content]
  {
    NewestFirst(p1, p2, p3);
    TrendingInOrder(p1, p2, p3);
  }

  /** Three posts created within one clock tick come out of the global
      feed in publication order. */
  lemma SameInstantFeed(app: SocialMediaApp, p1: Post, p2: Post, p3: Post)
    requires app.posts == [p1, p2, p3]
    requires p1.timestamp == p2.timestamp == p3.timestamp
    ensures Contents(app.GetAllPosts()) == [p1.content, p2.content, p3.content]
  {
    app.AllPostsSameInstant();
  }

  /** The feed of a user with one post. */
  lemma FeedOfOne(app: SocialMediaApp, userId: int, p: Post)
    requires userId in app.users && app.users[userId].posts == [p]
    ensures Contents(app.GetUserPosts(userId)) == [p.content]
  {
    SinglePost(p);
  }

  /** The first half of the run: the directory, its three users, and one
      post by each, created at times 1, 2 and 3 and published in that
      order. */
  method Publish()
    returns (app: SocialMediaApp, alice: User, bob: User, charlie: User,
             post1: Post, post2: Post, post3: Post)
    ensures fresh(app) && fresh(alice) && fresh(bob) && fresh(charlie)
    ensures fresh(post1) && fresh(post2) && fresh(post3)
    ensures alice != bob && bob != charlie && alice != charlie
    ensures post1 != post2 && post2 != post3 && post1 != post3
    ensures app.users == map[1 := alice, 2 := bob, 3 := charlie]
    ensures app.posts == [post1, post2, post3]
    ensures alice.username == "Alice" && bob.username == "Bob" && charlie.username == "Charlie"
    ensures alice.posts == [post1]
    ensures alice.following == [] && alice.followers == []
    ensures bob.following == [] && bob.followers == []
    ensures charlie.following == [] && charlie.followers == []
    ensures post1.content == "Hello, world!" && post1.timestamp == 1
    ensures post2.content == "Python is fun!" && post2.timestamp == 2
    ensures post3.content == "Just had amazing coffee." && post3.timestamp == 3
    ensures post1.likes == [] && post2.likes == [] && post3.likes == []
    ensures post1.comments == [] && post2.comments == [] && post3.comments == []
  {
    app := new SocialMediaApp();
    var user1 := app.CreateUser(1, "Alice", Some("alice.jpg"));
    var user2 := app.CreateUser(2, "Bob", Some("bob.png"));
    var user3 := app.CreateUser(3, "Charlie", Some("charlie.jpeg"));
    alice, bob, charlie := user1.value, user2.value, user3.value;
    assert app.users == map[1 := alice, 2 := bob, 3 := charlie];

    post1 := alice.CreatePost("Hello, world!", Some("image.jpg"), Some([bob]), 1);
    post2 := bob.CreatePost("Python is fun!", Some("video.mp4"), None, 2);
    post3 := charlie.CreatePost("Just had amazing coffee.", None, None, 3);

    app.AddPost(post1);
    app.AddPost(post2);
    app.AddPost(post3);
  }

  /** The reactions of the run: Bob likes the first post, Charlie comments
      on it at time 4, and Alice likes the second post. */
  method React(post1: Post, post2: Post, alice: User, bob: User, charlie: User)
    requires post1 != post2
    requires post1.likes == [] && post2.likes == [] && post1.comments == []
    modifies post1`likes, post1`comments, post2`likes
    ensures post1.likes == [bob] && |post1.comments| == 1
    ensures post2.likes == [alice]
  {
    post1.Like(bob);
    var comment := post1.AddComment(charlie, "Nice post!", 4);
    post2.Like(alice);
  }

  /** The follows of the run: Alice follows Bob and Bob follows Charlie,
      which keeps the follow graph of the three users consistent. */
  method Connect(alice: User, bob: User, charlie: User)
    requires alice != bob && bob != charlie && alice != charlie
    requires alice.following == [] && alice.followers == []
    requires bob.following == [] && bob.followers == []
    requires charlie.following == [] && charlie.followers == []
    modifies alice`following, bob`following, bob`followers, charlie`followers
    ensures alice.following == [bob] && bob.followers == [alice]
    ensures bob.following == [charlie] && charlie.followers == [bob]
    ensures alice.followers == [] && charlie.following == []
    ensures FollowGraph({alice, bob, charlie})
  {
    ghost var everyone := {alice, bob, charlie};
    assert FollowGraph(everyone);
    alice.Follow(bob, everyone);
    assert alice.following == [bob] && bob.followers == [alice];
    bob.Follow(charlie, everyone);
  }

  /** The global and trending feeds the run prints, for three published
      posts created in order whose scores never increase. */
  method PrintedFeeds(app: SocialMediaApp, post1: Post, post2: Post, post3: Post)
    returns (allPosts: seq<string>, trending: seq<string>)
    requires app.posts == [post1, post2, post3]
    requires post1.timestamp < post2.timestamp < post3.timestamp
    requires post1.Score() >= post2.Score() >= post3.Score()
    ensures allPosts == [post3.content, post2.content, post1.content]
    ensures trending == [post1.content, post2.content, post3.content]
  {
    FeedsOfThree(app, post1, post2, post3);
    allPosts := Contents(app.GetAllPosts());
    trending := Contents(app.GetTrendingPosts());
  }

  /** The user feeds the run prints or could print: user 1's single post,
      and nothing for the unregistered id 4. */
  method PrintedUserFeeds(app: SocialMediaApp, alice: User, post1: Post)
    returns (alicePosts: seq<string>, unknownUserPosts: nat)
    requires app.users.Keys == {1, 2, 3} && app.users[1] == alice
    requires alice.posts == [post1]
    ensures alicePosts == [post1.content]
    ensures unknownUserPosts == 0
  {
    FeedOfOne(app, 1, post1);
    alicePosts := Contents(app.GetUserPosts(1));
    unknownUserPosts := |app.GetUserPosts(4)|;
  }

  /** The whole run and what it prints. */
  method Scenario()
    returns (allPosts: seq<string>, alicePosts: seq<string>, trending: seq<string>,
             post1Likes: nat, post1Comments: nat, unknownUserPosts: nat,
             bobFollowers: seq<string>, aliceFollowing: seq<string>)
    ensures allPosts == ["Just had amazing coffee.", "Python is fun!", "Hello, world!"]
    ensures alicePosts == ["Hello, world!"]
    ensures trending == ["Hello, world!", "Python is fun!", "Just had amazing coffee."]
    ensures post1Likes == 1 && post1Comments == 1
    ensures unknownUserPosts == 0
    ensures bobFollowers == ["Alice"] && aliceFollowing == ["Bob"]
  {
    var app, alice, bob, charlie, post1, post2, post3 := Publish();
    React(post1, post2, alice, bob, charlie);
    Connect(alice, bob, charlie);
    assert post1.Score() == 2 && post2.Score() == 1 && post3.Score() == 0;
    allPosts, trending := PrintedFeeds(app, post1, post2, post3);
    alicePosts, unknownUserPosts := PrintedUserFeeds(app, alice, post1);
    post1Likes, post1Comments := |post1.likes|, |post1.comments|;
    bobFollowers, aliceFollowing := Usernames(bob.followers), Usernames(alice.following);
  }
}
