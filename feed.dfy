/** The post feed: the snapshot of posts, the like toggle and the greeting. */
module Feed {
  import opened Wrappers
  import opened Firestore
  import opened Seqs
  import opened Records

  /** The likes list after `likeButtonPressed`: every occurrence of the user removed, or the user appended. */
  function ToggledLikes(likes: seq<string>, userID: string): seq<string> {
    if userID in likes then Without(likes, userID) else likes + [userID]
  }

  /**
   * A toggle flips the user's membership; with the user taken out, the list
   * is the same before and after, so the other users' entries keep their
   * relative order; the length grows by one or loses every occurrence.
   */
  lemma ToggleFlipsMembership(likes: seq<string>, userID: string)
    ensures userID in ToggledLikes(likes, userID) <==> userID !in likes
    ensures Without(ToggledLikes(likes, userID), userID) == Without(likes, userID)
    ensures |ToggledLikes(likes, userID)| ==
            if userID in likes then |likes| - multiset(likes)[userID] else |likes| + 1
  {
    if userID in likes {
      WithoutMembership(likes, userID, userID);
      WithoutAbsent(Without(likes, userID), userID);
      WithoutLength(likes, userID);
    } else {
      WithoutAppend(likes, [userID], userID);
      assert Without([userID], userID) == [];
    }
  }

  /** Toggling twice from a list without the user gives back that list. */
  lemma ToggleTwice(likes: seq<string>, userID: string)
    requires userID !in likes
    ensures ToggledLikes(ToggledLikes(likes, userID), userID) == likes
  {
    WithoutAppend(likes, [userID], userID);
    assert Without([userID], userID) == [];
    WithoutAbsent(likes, userID);
  }

  /** The filled thumbs-up of a post cell; with no user the check is for "". */
  predicate HasLiked(post: Post, userID: Option<string>) {
    userID.GetOr("") in post.likes
  }

  /** The number in the cell's "N likes" label. */
  function LikeCount(post: Post): nat {
    |post.likes|
  }

  /** After the user's toggle is stored, the indicator flips and the count moves the same way. */
  lemma IndicatorFollowsToggle(post: Post, userID: string)
    ensures var after := post.(likes := ToggledLikes(post.likes, userID));
      && (HasLiked(after, Some(userID)) <==> !HasLiked(post, Some(userID)))
      && (HasLiked(after, Some(userID)) ==> LikeCount(after) == LikeCount(post) + 1)
      && (!HasLiked(after, Some(userID)) ==> LikeCount(after) < LikeCount(post))
  {
    ToggleFlipsMembership(post.likes, userID);
    if userID in post.likes {
      assert multiset(post.likes)[userID] > 0;
    }
  }

  /** `updateGreeting` for the hour of the day. */
  function Greeting(hour: int): (g: string)
    ensures g == "Good Morning" <==> 0 <= hour < 12
    ensures g == "Good Afternoon" <==> 12 <= hour < 17
    ensures g == "Good Evening" <==> !(0 <= hour < 17)
  {
    if 0 <= hour < 12 then "Good Morning"
    else if 12 <= hour < 17 then "Good Afternoon"
    else "Good Evening"
  }

  /** The `timestamp` field of a post document, when it holds one. */
  function PostStamp(d: Document): Option<int> {
    GetTimestamp(d.data, "timestamp")
  }

  /** The snapshot is in the `order(by: "timestamp", descending: true)` order. */
  ghost predicate NewestFirst(docs: seq<Document>) {
    forall i, j :: 0 <= i < j < |docs| && PostStamp(docs[i]).Some? && PostStamp(docs[j]).Some? ==>
      PostStamp(docs[i]).value >= PostStamp(docs[j]).value
  }

  function Age(p: Post): int {
    -p.timestamp
  }

  /** The decoded feed of a newest-first snapshot is newest first. */
  lemma FeedNewestFirst(docs: seq<Document>)
    requires NewestFirst(docs)
    ensures var posts := CompactMap(docs, DecodePost);
      forall i, j :: 0 <= i < j < |posts| ==> posts[i].timestamp >= posts[j].timestamp
  {
    forall i, j | 0 <= i < j < |docs| && DecodePost(docs[i]).Some? && DecodePost(docs[j]).Some?
      ensures Age(DecodePost(docs[i]).value) <= Age(DecodePost(docs[j]).value)
    {
      assert PostStamp(docs[i]).Some? && PostStamp(docs[j]).Some?;
    }
    CompactMapOrdered(docs, DecodePost, Age);
    var posts := CompactMap(docs, DecodePost);
    assert AscendingBy(posts, Age);
    forall i, j | 0 <= i < j < |posts| ensures posts[i].timestamp >= posts[j].timestamp {
      assert Age(posts[i]) <= Age(posts[j]);
    }
  }

  class FeedScreen {
    var posts: seq<Post>
    var userID: Option<string>

    constructor (userID: Option<string>)
      ensures posts == [] && this.userID == userID
    {
      posts, this.userID := [], userID;
    }

    /**
     * One delivery of the `fetchPosts` listener: an error or a missing
     * snapshot keeps the feed; otherwise it becomes the decodable posts in
     * snapshot order.
     */
    method OnPostsSnapshot(failed: bool, snapshot: Option<seq<Document>>)
      modifies this`posts
      ensures failed || snapshot.None? ==> posts == old(posts)
      ensures !failed && snapshot.Some? ==> posts == CompactMap(snapshot.value, DecodePost)
    {
      if failed || snapshot.None? {
        return;
      }
      posts := CompactMap(snapshot.value, DecodePost);
    }

    /**
     * `likeButtonPressed` for row `index` and the completion of its write.
     * The post's likes are toggled in the store at `post.id ?? ""`; the local
     * copy changes only when that write succeeds, and nothing happens
     * without a user.
     */
    method LikeButtonPressed(index: nat, db: Db, ok: bool) returns (db': Db)
      requires index < |posts|
      modifies this`posts
      ensures userID.None? ==> posts == old(posts) && db' == db
      ensures userID.Some? ==>
        var post := old(posts)[index];
        var updatedLikes := ToggledLikes(post.likes, userID.value);
        && db' == db.(posts := UpdateData(db.posts, post.id.GetOr(""), map["likes" := StringArray(updatedLikes)], ok))
        && posts == if UpdateSucceeds(db.posts, post.id.GetOr(""), ok)
                    then old(posts)[index := post.(likes := updatedLikes)]
                    else old(posts)
    {
      db' := db;
      if userID.None? {
        return;
      }
      var post := posts[index];
      var postRef := post.id.GetOr("");
      var updatedLikes := post.likes;
      var hasLiked := userID.value in updatedLikes;
      if hasLiked {
        updatedLikes := Without(updatedLikes, userID.value);
      } else {
        updatedLikes := updatedLikes + [userID.value];
      }
      var succeeded := UpdateSucceeds(db.posts, postRef, ok);
      db' := db.(posts := UpdateData(db.posts, postRef, map["likes" := StringArray(updatedLikes)], ok));
      if succeeded {
        posts := posts[index := posts[index].(likes := updatedLikes)];
      }
    }
  }
}
