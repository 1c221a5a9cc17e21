/**
 * The top-level `App` component: the selected profile, the rendered posts and the Firebase user
 * that gates the feed subscription; and the pure views that show posts with the meal tables.
 */
module Page {
  import opened Wrappers
  import opened Records
  import opened Feed
  import Meals
  import Composer
  import JsString

  /** What the `Post` component shows: the meal image only when the meal has one, the meal label if any. */
  datatype Card = Card(
    title: string,
    mealImage: Option<string>,
    mealText: Option<string>,
    body: string,
    authorName: string,
    authorImage: string)

  function Lookup(m: map<string, string>, key: string): Option<string> {
    if key in m then Some(m[key]) else None
  }

  /** The `Post` component: `mealImageMap[meal]` and `mealLabelMap[meal]` are undefined for an unknown meal. */
  function PostCard(p: Post): Card {
    Card(p.accommodationName, Lookup(Meals.MealImageMap(), p.meal), Lookup(Meals.MealLabelMap(), p.meal),
         p.description, p.author.name, p.author.imageUrl)
  }

  /** The `PostFeed` component: the placeholder text, or one card per post in feed order. */
  datatype FeedView = NoPostsYet | Cards(cards: seq<Card>)

  function PostFeed(posts: seq<Post>): (v: FeedView)
    ensures v == NoPostsYet <==> posts == []
    ensures v.Cards? ==> |v.cards| == |posts|
  {
    if |posts| > 0 then Cards(seq(|posts|, i requires 0 <= i < |posts| => PostCard(posts[i]))) else NoPostsYet
  }

  /** A card shows a meal image and label exactly when the post's meal is one of the options, and then that option's. */
  lemma CardShowsMeal(p: Post)
    ensures PostCard(p).mealImage.Some? <==> p.meal in Meals.MealValues()
    ensures PostCard(p).mealText.Some? <==> p.meal in Meals.MealValues()
    ensures forall o :: o in Meals.MealOptions && o.value == p.meal ==>
      PostCard(p).mealImage == Some(o.imageUrl) && PostCard(p).mealText == Some(o.labelText)
  {
    Meals.MealTablesContents();
  }

  /** A permutation of a single post is that post alone. */
  lemma SingleDocFeed(d: Doc, posts: seq<Post>)
    requires multiset(posts) == multiset(TagAll([d]))
    ensures posts == [Tag(d)]
  {
    assert TagAll([d]) == [Tag(d)];
    assert |posts| == 1 by { assert |multiset(posts)| == |multiset([Tag(d)])|; }
    assert posts[0] in multiset([Tag(d)]);
  }

  /** The card of a fish post. */
  lemma FishCard(p: Post)
    requires p.meal == "fish"
    ensures PostCard(p) == Card(p.accommodationName,
                                Some("https://em-content.zobj.net/source/apple/419/fish_1f41f.png"), Some("Fish"),
                                p.description, p.author.name, p.author.imageUrl)
  {
    CardShowsMeal(p);
    assert Meals.MealOptions[0] in Meals.MealOptions;
  }

  /** The form of the scenario below: both fields filled, the default meal. */
  lemma KexHostelFormFilled()
    ensures Composer.FieldsFilled(Composer.InitialForm.(accommodationName := "Kex Hostel", description := "Great views"))
  {
    var f := Composer.InitialForm.(accommodationName := "Kex Hostel", description := "Great views");
    assert f.accommodationName[0] == 'K' && f.description[0] == 'G';
    assert !JsString.IsWhitespace('K') && !JsString.IsWhitespace('G');
  }

  /** The scenario's record: what submitting "Kex Hostel" / "Great views" by `author` at `now` writes. */
  function KexHostelRecord(author: Profile, uid: string, now: int): Post {
    Post("Kex Hostel", "Great views", "fish", author, uid, now, None)
  }

  /** Submitting "Kex Hostel" / "Great views" with the default meal hands the store exactly that record. */
  lemma KexHostelSubmission(author: Profile, uid: string, now: int)
    ensures Composer.HandleSubmit(Composer.InitialForm.(accommodationName := "Kex Hostel", description := "Great views"),
                                  Some(author), Some(uid), now, Composer.Ok).write
         == Some(KexHostelRecord(author, uid, now))
  {
    KexHostelFormFilled();
    Composer.ValidSubmissionWrites(Composer.InitialForm.(accommodationName := "Kex Hostel", description := "Great views"),
                                   author, uid, now, Composer.Ok);
  }

  /**
   * End to end, from an empty collection: once the subscription delivers the submitted record as
   * the only document, the feed shows exactly one card with that content, the fish image and label,
   * and the submitting profile.
   */
  lemma KexHostelFeed(author: Profile, uid: string, now: int, docId: string, posts: seq<Post>)
    requires multiset(posts) == multiset(TagAll([Doc(docId, KexHostelRecord(author, uid, now))]))
    ensures PostFeed(posts) == Cards([Card("Kex Hostel",
                                           Some("https://em-content.zobj.net/source/apple/419/fish_1f41f.png"), Some("Fish"),
                                           "Great views", author.name, author.imageUrl)])
  {
    var d := Doc(docId, KexHostelRecord(author, uid, now));
    SingleDocFeed(d, posts);
    FishCard(Tag(d));
  }

  /** The `App` component's state. `firebaseUser` is the uid of the signed-in Firebase user, if any. */
  class App {
    var selectedUser: Option<Profile>
    var posts: seq<Post>
    var firebaseUser: Option<string>

    constructor ()
      ensures selectedUser == None && posts == [] && firebaseUser == None
    {
      selectedUser, posts, firebaseUser := None, [], None;
    }

    /**
     * The auth listener reporting a user, or the anonymous sign-in it starts resolving. A failed
     * sign-in only logs, so it has no transition; nothing ever sets the Firebase user back to null.
     */
    method OnFirebaseUser(uid: string)
      modifies this`firebaseUser
      ensures firebaseUser == Some(uid)
      ensures selectedUser == old(selectedUser) && posts == old(posts)
    {
      firebaseUser := Some(uid);
    }

    /**
     * A query snapshot arriving. The subscription exists only while there is a Firebase user, so
     * without one nothing is delivered; with one, `posts` is replaced wholesale by the tagged,
     * newest-first documents.
     */
    method OnSnapshot(docs: seq<Doc>)
      modifies this`posts
      ensures firebaseUser.None? ==> posts == old(posts)
      ensures firebaseUser.Some? ==>
        && multiset(posts) == multiset(TagAll(docs))
        && NewestFirst(posts)
        && (NewestFirst(TagAll(docs)) ==> posts == TagAll(docs))
      ensures selectedUser == old(selectedUser) && firebaseUser == old(firebaseUser)
    {
      if firebaseUser.Some? {
        var postsData := PostsFromSnapshot(docs);
        posts := postsData;
      }
    }

    /** The subscription's error callback only logs: the last good feed stays. */
    method OnSnapshotError()
      ensures posts == old(posts) && selectedUser == old(selectedUser) && firebaseUser == old(firebaseUser)
    {
    }

    /** `handleUserSelect(user)` */
    method HandleUserSelect(user: Profile)
      modifies this`selectedUser
      ensures selectedUser == Some(user)
      ensures posts == old(posts) && firebaseUser == old(firebaseUser)
    {
      selectedUser := Some(user);
    }

    /** `handleSignOut`, the "Switch User" button: back to the selection page; the feed and the Firebase session stay. */
    method HandleSignOut()
      modifies this`selectedUser
      ensures selectedUser == None
      ensures posts == old(posts) && firebaseUser == old(firebaseUser)
    {
      selectedUser := None;
    }
  }

  /** Switching from one profile to another leaves every post, and so every author, as it was. */
  method SwitchUser(app: App, next: Profile)
    modifies app
    ensures app.selectedUser == Some(next)
    ensures app.posts == old(app.posts) && app.firebaseUser == old(app.firebaseUser)
  {
    app.HandleSignOut();
    app.HandleUserSelect(next);
  }
}
