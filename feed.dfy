/**
 * The feed snapshot reducer: every document of a snapshot is tagged with its id, the list is sorted
 * in place by `createdAt`, newest first, and the result replaces the rendered list.
 */
module Feed {
  import opened Wrappers
  import opened Records

  /** `{ ...doc.data(), id: doc.id }`: the data's fields, with `id` set to the document id whether or not the data had one. */
  function Tag(d: Doc): (p: Post)
    ensures p.id == Some(d.id)
    ensures p.(id := d.data.id) == d.data
  {
    d.data.(id := Some(d.id))
  }

  /** `querySnapshot.docs.map(...)` */
  function TagAll(docs: seq<Doc>): seq<Post> {
    seq(|docs|, i requires 0 <= i < |docs| => Tag(docs[i]))
  }

  /** Ordered by `createdAt`, non-increasing: the newest post first. */
  predicate NewestFirst(s: seq<Post>) {
    forall i, j :: 0 <= i < j < |s| ==> s[i].createdAt >= s[j].createdAt
  }

  /** No two posts share a timestamp. */
  predicate DistinctTimes(s: seq<Post>) {
    forall i, j :: 0 <= i < j < |s| ==> s[i].createdAt != s[j].createdAt
  }

  method Swap(a: array<Post>, i: nat, j: nat)
    requires i < a.Length && j < a.Length
    modifies a
    ensures a[i] == old(a[j]) && a[j] == old(a[i])
    ensures forall k :: 0 <= k < a.Length && k != i && k != j ==> a[k] == old(a[k])
    ensures multiset(a[..]) == multiset(old(a[..]))
  {
    a[i], a[j] := a[j], a[i];
  }

  /**
   * `postsData.sort((a, b) => b.createdAt.toMillis() - a.createdAt.toMillis())`, as a stable
   * insertion sort: the result is ordered newest first, is a permutation of the input, and an
   * input already in that order is left as it is.
   */
  method SortNewestFirst(a: array<Post>)
    modifies a
    ensures NewestFirst(a[..])
    ensures multiset(a[..]) == multiset(old(a[..]))
    ensures NewestFirst(old(a[..])) ==> a[..] == old(a[..])
  {
    var i := 0;
    while i < a.Length
      invariant 0 <= i <= a.Length
      invariant forall k, l :: 0 <= k < l < i ==> a[k].createdAt >= a[l].createdAt
      invariant multiset(a[..]) == multiset(old(a[..]))
      invariant NewestFirst(old(a[..])) ==> a[..] == old(a[..])
    {
      var j := i;
      while j > 0 && a[j - 1].createdAt < a[j].createdAt
        invariant 0 <= j <= i
        invariant forall k, l :: 0 <= k < l <= i && k != j && l != j ==> a[k].createdAt >= a[l].createdAt
        invariant forall l :: j < l <= i ==> a[j].createdAt > a[l].createdAt
        invariant multiset(a[..]) == multiset(old(a[..]))
        invariant NewestFirst(old(a[..])) ==> a[..] == old(a[..])
      {
        Swap(a, j - 1, j);
        j := j - 1;
      }
      i := i + 1;
    }
  }

  /**
   * The `onSnapshot` callback's computation: the posts it passes to `setPosts` are the tagged
   * documents, each exactly as often as in the snapshot, newest first; a snapshot whose documents
   * already come newest first is kept in its order.
   */
  method PostsFromSnapshot(docs: seq<Doc>) returns (posts: seq<Post>)
    ensures multiset(posts) == multiset(TagAll(docs))
    ensures NewestFirst(posts)
    ensures NewestFirst(TagAll(docs)) ==> posts == TagAll(docs)
  {
    var postsData := new Post[|docs|](i requires 0 <= i < |docs| => Tag(docs[i]));
    assert postsData[..] == TagAll(docs);
    SortNewestFirst(postsData);
    posts := postsData[..];
  }

  /** Every post of a permutation of the tagged snapshot comes from one of its documents and carries that document's id. */
  lemma FromSnapshotDocs(docs: seq<Doc>, posts: seq<Post>, k: nat)
    requires multiset(posts) == multiset(TagAll(docs))
    requires k < |posts|
    ensures exists d :: d in docs && posts[k] == Tag(d) && posts[k].id == Some(d.id)
  {
    assert posts[k] in multiset(TagAll(docs));
    var i :| 0 <= i < |docs| && TagAll(docs)[i] == posts[k];
    assert docs[i] in docs;
  }

  lemma {:induction false} InMultisetNotNewer(s: seq<Post>, p: Post)
    requires NewestFirst(s) && s != []
    requires p in multiset(s)
    ensures s[0].createdAt >= p.createdAt
  {
  }

  lemma TailsAgree(s: seq<Post>, t: seq<Post>)
    requires s != [] && t != [] && s[0] == t[0]
    requires multiset(s) == multiset(t)
    ensures multiset(s[1..]) == multiset(t[1..])
  {
    assert s == [s[0]] + s[1..] && t == [t[0]] + t[1..];
    assert multiset(s) == multiset{s[0]} + multiset(s[1..]);
    assert multiset(t) == multiset{t[0]} + multiset(t[1..]);
    assert multiset(s[1..]) == multiset(s) - multiset{s[0]};
  }

  lemma HeadsAgree(s: seq<Post>, t: seq<Post>)
    requires NewestFirst(s) && NewestFirst(t) && s != [] && t != []
    requires multiset(s) == multiset(t)
    requires DistinctTimes(s)
    ensures s[0] == t[0]
  {
    assert s[0] in multiset(t) && t[0] in multiset(s);
    InMultisetNotNewer(t, s[0]);
    InMultisetNotNewer(s, t[0]);
    var i :| 0 <= i < |s| && s[i] == t[0];
    assert i == 0;
  }

  /**
   * When no two documents share a timestamp the feed order is determined: two newest-first
   * arrangements of the same posts are the same list.
   */
  lemma {:induction false} NewestFirstUnique(s: seq<Post>, t: seq<Post>)
    requires NewestFirst(s) && NewestFirst(t)
    requires multiset(s) == multiset(t)
    requires DistinctTimes(s)
    ensures s == t
    decreases |s|
  {
    assert |t| == |s| by { assert |multiset(t)| == |multiset(s)|; }
    if s != [] {
      HeadsAgree(s, t);
      TailsAgree(s, t);
      assert DistinctTimes(s[1..]) by {
        forall a, b | 0 <= a < b < |s[1..]| ensures s[1..][a].createdAt != s[1..][b].createdAt {
          assert s[1..][a] == s[a + 1] && s[1..][b] == s[b + 1];
        }
      }
      NewestFirstUnique(s[1..], t[1..]);
      assert s == [s[0]] + s[1..] && t == [t[0]] + t[1..];
    }
  }
}
