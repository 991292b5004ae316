/**
 * The `Post` test model: its two cache keys and the producers bound to them.
 * Timestamps and `published_at` are not part of a row here.
 */
module Posts {
  import opened Wrappers
  import opened CacheMachine

  /** A row of the `posts` table. */
  datatype Post = Post(id: int, categoryId: Option<int>, title: string, content: string)

  /** What the two producers yield: the collection of rows, or an id => title collection. */
  datatype PostValue = Rows(posts: seq<Post>) | Titles(titles: map<int, string>)

  const ALL: Key := "all_posts"
  const SELECT: Key := "select_posts"

  /** The ALL producer: every row of the table, in table order. */
  function AllPosts(posts: seq<Post>): Option<PostValue>
  {
    Some(Rows(posts))
  }

  /** The SELECT producer: every row's id mapped to its title. */
  function SelectPosts(posts: seq<Post>): Option<PostValue>
  {
    Some(Titles(TitleIndex(posts)))
  }

  /** Each row in turn maps its id to its title; a later row with the same id overwrites an earlier one. */
  function TitleIndex(posts: seq<Post>): map<int, string>
    decreases |posts|
  {
    if posts == [] then map[]
    else TitleIndex(posts[..|posts| - 1])[posts[|posts| - 1].id := posts[|posts| - 1].title]
  }

  function Ids(posts: seq<Post>): set<int>
  {
    set p | p in posts :: p.id
  }

  /** `id` is the table's primary key. */
  ghost predicate DistinctIds(posts: seq<Post>)
  {
    forall i, j :: 0 <= i < j < |posts| ==> posts[i].id != posts[j].id
  }

  /** The Post model's registry of cache keys, in declaration order. */
  function CacheKeys(): Items<Post, PostValue>
  {
    [(ALL, AllPosts), (SELECT, SelectPosts)]
  }

  /** The registry binds exactly the two keys, once each, to the two producers. */
  lemma CacheKeysRegistry(posts: seq<Post>)
    ensures DistinctKeys(CacheKeys())
    ensures KeySet(CacheKeys()) == {ALL, SELECT}
    ensures Lookup(CacheKeys(), ALL).Some? && Lookup(CacheKeys(), ALL).value(posts) == Some(Rows(posts))
    ensures Lookup(CacheKeys(), SELECT).Some? && Lookup(CacheKeys(), SELECT).value(posts) == Some(Titles(TitleIndex(posts)))
  {
  }

  /** The index has one key per row id, and no other. */
  lemma {:induction false} TitleIndexKeys(posts: seq<Post>)
    ensures TitleIndex(posts).Keys == Ids(posts)
    decreases |posts|
  {
    if posts != [] {
      var init, last := posts[..|posts| - 1], posts[|posts| - 1];
      TitleIndexKeys(init);
      assert posts == init + [last];
      assert Ids(posts) == Ids(init) + {last.id};
    }
  }

  /** With distinct ids, each row's id maps to that row's title. */
  lemma {:induction false} TitleIndexTitle(posts: seq<Post>, i: nat)
    requires DistinctIds(posts) && i < |posts|
    ensures posts[i].id in TitleIndex(posts) && TitleIndex(posts)[posts[i].id] == posts[i].title
    decreases |posts|
  {
    var init := posts[..|posts| - 1];
    if i < |posts| - 1 {
      assert posts[i] == init[i];
      assert DistinctIds(init);
      TitleIndexTitle(init, i);
    }
  }

  /** The keys of the SELECT value are the ids of the rows in the ALL value. */
  lemma SelectKeysAreAllIds(posts: seq<Post>)
    ensures SelectPosts(posts).value.titles.Keys == set p | p in AllPosts(posts).value.posts :: p.id
  {
    TitleIndexKeys(posts);
  }

  /**
   * After any save or delete of a model registered with its own `cacheKeys()`,
   * ALL holds the new table in table order, SELECT its id => title index, and
   * every other slot is as before.
   */
  lemma PostMutationCaches(store: map<Key, PostValue>, oldPosts: seq<Post>, newPosts: seq<Post>)
    ensures var r := RunStore(RunStore(store, oldPosts, Befores(CacheKeys())), newPosts, Afters(CacheKeys()));
      && Cached(r, ALL) == Some(Rows(newPosts))
      && Cached(r, SELECT) == Some(Titles(TitleIndex(newPosts)))
      && forall k :: k != ALL && k != SELECT ==> Cached(r, k) == Cached(store, k)
  {
  }
}
