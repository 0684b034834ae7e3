/**
 * The favorites list and the favorites-only display filter: the updater
 * passed to `setFavorites` by `toggleFavorite`, and the `displayedPosts`
 * memo, both pure operations on sequences.
 */
module Favorites {
  import opened Feed

  predicate NoDuplicates<T(==)>(s: seq<T>)
  {
    forall i, j :: 0 <= i < j < |s| ==> s[i] != s[j]
  }

  /** `xs` is `ys` with some elements deleted, the others kept in order. */
  ghost predicate IsSubsequence<T>(xs: seq<T>, ys: seq<T>)
    decreases |ys|
  {
    if xs == [] then true
    else if ys == [] then false
    else (xs[0] == ys[0] && IsSubsequence(xs[1..], ys[1..])) || IsSubsequence(xs, ys[1..])
  }

  /** `favs.filter(x => x !== id)`. */
  function RemoveAll(favs: seq<PostId>, id: PostId): (r: seq<PostId>)
    ensures forall x :: x in r <==> x in favs && x != id
    ensures multiset(r)[id] == 0
    ensures forall x :: x != id ==> multiset(r)[x] == multiset(favs)[x]
    ensures id !in favs ==> r == favs
    ensures IsSubsequence(r, favs)
  {
    if favs == [] then []
    else
      var rest := RemoveAll(favs[1..], id);
      assert favs == [favs[0]] + favs[1..];
      if favs[0] == id then rest else [favs[0]] + rest
  }

  /**
   * The `toggleFavorite` updater: an id already in the list is removed
   * (every occurrence of it), an absent one is appended at the end.
   */
  function Toggle(favs: seq<PostId>, id: PostId): (r: seq<PostId>)
    ensures forall x :: x in r <==> (if x == id then id !in favs else x in favs)
    ensures multiset(r)[id] == if id in favs then 0 else 1
    ensures forall x :: x != id ==> multiset(r)[x] == multiset(favs)[x]
  {
    if id in favs then RemoveAll(favs, id) else favs + [id]
  }

  lemma {:induction false} RemoveAllAppend(a: seq<PostId>, b: seq<PostId>, id: PostId)
    ensures RemoveAll(a + b, id) == RemoveAll(a, id) + RemoveAll(b, id)
    decreases |a|
  {
    if a == [] {
      assert a + b == b;
    } else {
      assert (a + b)[1..] == a[1..] + b;
      RemoveAllAppend(a[1..], b, id);
    }
  }

  /** Toggling never disturbs the relative order of the other ids. */
  lemma ToggleKeepsOthersInOrder(favs: seq<PostId>, id: PostId)
    ensures RemoveAll(Toggle(favs, id), id) == RemoveAll(favs, id)
    ensures id !in favs ==> Toggle(favs, id) == favs + [id]
  {
    if id !in favs {
      RemoveAllAppend(favs, [id], id);
      assert RemoveAll([id], id) == RemoveAll([], id);
    }
  }

  /**
   * Toggling the same id twice restores every id's membership; from an
   * absent id the list itself comes back, from a present one its
   * occurrences are gathered into a single one at the end.
   */
  lemma ToggleTwice(favs: seq<PostId>, id: PostId)
    ensures forall x :: x in Toggle(Toggle(favs, id), id) <==> x in favs
    ensures id !in favs ==> Toggle(Toggle(favs, id), id) == favs
    ensures id in favs ==> Toggle(Toggle(favs, id), id) == RemoveAll(favs, id) + [id]
  {
    ToggleKeepsOthersInOrder(favs, id);
  }

  lemma NoDuplicatesTail(s: seq<PostId>)
    requires s != [] && NoDuplicates(s)
    ensures s[0] !in s[1..] && NoDuplicates(s[1..])
  {
    forall i, j | 0 <= i < j < |s[1..]| ensures s[1..][i] != s[1..][j] {
      assert s[1..][i] == s[i + 1] && s[1..][j] == s[j + 1];
    }
    forall k | 0 <= k < |s[1..]| ensures s[1..][k] != s[0] {
      assert s[1..][k] == s[k + 1];
    }
  }

  lemma NoDuplicatesCons(h: PostId, t: seq<PostId>)
    requires h !in t && NoDuplicates(t)
    ensures NoDuplicates([h] + t)
  {
    var r := [h] + t;
    forall i, j | 0 <= i < j < |r| ensures r[i] != r[j] {
      assert r[j] == t[j - 1];
      if i > 0 {
        assert r[i] == t[i - 1];
      }
    }
  }

  lemma {:induction false} RemoveAllNoDuplicates(favs: seq<PostId>, id: PostId)
    requires NoDuplicates(favs)
    ensures NoDuplicates(RemoveAll(favs, id))
    decreases |favs|
  {
    if favs != [] {
      NoDuplicatesTail(favs);
      RemoveAllNoDuplicates(favs[1..], id);
      if favs[0] != id {
        NoDuplicatesCons(favs[0], RemoveAll(favs[1..], id));
      }
    }
  }

  /** A list without repetitions has none after a toggle. */
  lemma ToggleNoDuplicates(favs: seq<PostId>, id: PostId)
    requires NoDuplicates(favs)
    ensures NoDuplicates(Toggle(favs, id))
  {
    if id in favs {
      RemoveAllNoDuplicates(favs, id);
    } else {
      var r := favs + [id];
      forall i, j | 0 <= i < j < |r| ensures r[i] != r[j] {
        if j == |favs| {
          assert r[i] == favs[i];
        } else {
          assert r[i] == favs[i] && r[j] == favs[j];
        }
      }
    }
  }

  /** `posts.filter(post => favs.includes(post.reddit_id))`. */
  function KeepFavorites(posts: seq<Post>, favs: seq<PostId>): (r: seq<Post>)
    ensures forall p :: multiset(r)[p] == if p.redditId in favs then multiset(posts)[p] else 0
    ensures IsSubsequence(r, posts)
    ensures |r| <= |posts|
    ensures forall p :: p in r ==> p in posts
  {
    if posts == [] then []
    else
      var rest := KeepFavorites(posts[1..], favs);
      assert posts == [posts[0]] + posts[1..];
      if posts[0].redditId in favs then [posts[0]] + rest else rest
  }

  /** The `displayedPosts` memo: the fetched page, or its favorites only. */
  function Displayed(posts: seq<Post>, favs: seq<PostId>, favoritesOnly: bool): (r: seq<Post>)
    ensures |r| <= |posts|
    ensures forall p :: p in r ==> p in posts
  {
    if favoritesOnly then KeepFavorites(posts, favs) else posts
  }

  /**
   * With the filter off the fetched page is shown as it is; with it on,
   * the posts shown are, in their fetched order, exactly the loaded posts
   * whose id is a favorite: none other is shown and none of them dropped.
   */
  lemma DisplayedIsFavoritesFilter(posts: seq<Post>, favs: seq<PostId>, favoritesOnly: bool)
    ensures !favoritesOnly ==> Displayed(posts, favs, favoritesOnly) == posts
    ensures favoritesOnly ==> IsSubsequence(Displayed(posts, favs, favoritesOnly), posts)
    ensures favoritesOnly ==> forall p :: p in Displayed(posts, favs, favoritesOnly) <==> p in posts && p.redditId in favs
  {
    if favoritesOnly {
      var r := KeepFavorites(posts, favs);
      forall p ensures p in r <==> p in posts && p.redditId in favs {
        assert p in r <==> multiset(r)[p] > 0;
        assert p in posts <==> multiset(posts)[p] > 0;
      }
    }
  }
}
