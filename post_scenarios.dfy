/**
 * The test suite's scenarios, replayed on a `Post` model that registers its own
 * `cacheKeys()`. Each method returns what ends up cached under ALL and the
 * facade calls the step under test made.
 */
module PostScenarios {
  import opened Wrappers
  import opened CacheMachine
  import opened Posts

  /** The post `createPost()` makes with its default attributes, as row 1. */
  const DefaultPost := Post(1, None, "Title", "This is the content")

  /** The four calls a save or delete makes with both keys registered. */
  const MutationLog := [Forget(ALL), Forget(SELECT), RememberForever(ALL), RememberForever(SELECT)]

  /** A Post model with an empty event list and the given table and cache, then `cacheMachine(cacheKeys())`. */
  method Boot(posts: seq<Post>, store: map<Key, PostValue>) returns (m: CachedModel<Post, PostValue>)
    ensures fresh(m) && m.Valid() && m.bindings == CacheKeys() && m.registry == CacheKeys()
    ensures m.rows == posts && m.store == store && m.log == []
  {
    CacheKeysRegistry([]);
    m := new CachedModel(CacheKeys(), posts, store);
    m.CacheMachine(CacheKeys());
  }

  /** Creating a post into an empty table caches ALL as that one post, whatever the cache held. */
  method CreateScenario(store: map<Key, PostValue>) returns (cached: Option<PostValue>, calls: seq<Call>)
    ensures cached == Some(Rows([DefaultPost]))
    ensures calls == MutationLog
  {
    var m := Boot([], store);
    m.Save([DefaultPost]);
    PostMutationCaches(store, [], [DefaultPost]);
    cached, calls := Cached(m.store, ALL), m.log;
  }

  /** Updating the single post's content re-caches ALL with the new content. */
  method UpdateScenario(store: map<Key, PostValue>) returns (cached: Option<PostValue>, calls: seq<Call>)
    ensures cached == Some(Rows([DefaultPost.(content := "Updated")]))
    ensures calls == MutationLog
  {
    var m := Boot([DefaultPost], store);
    m.Save([DefaultPost.(content := "Updated")]);
    PostMutationCaches(store, [DefaultPost], [DefaultPost.(content := "Updated")]);
    cached, calls := Cached(m.store, ALL), m.log;
  }

  /** Deleting the first of three posts leaves posts 2 and 3 cached, in their order. */
  method DeleteScenario(store: map<Key, PostValue>) returns (cached: Option<PostValue>, calls: seq<Call>)
    ensures cached == Some(Rows([Post(2, None, "My title 2", "Content 2"), Post(3, None, "My title 3", "Content 3")]))
    ensures calls == MutationLog
  {
    var p1 := Post(1, None, "My title 1", "Content 1");
    var p2 := Post(2, None, "My title 2", "Content 2");
    var p3 := Post(3, None, "My title 3", "Content 3");
    var m := Boot([p1, p2, p3], store);
    m.Delete([p1, p2, p3][1..]);
    PostMutationCaches(store, [p1, p2, p3], [p2, p3]);
    cached, calls := Cached(m.store, ALL), m.log;
  }

  /** The row the test inserts straight into the table, bypassing model events. */
  const SilentPost := Post(1, None, "My title",
    "Lorem ipsum dolor sit amet consectetur adipisicing elit! Eveniet modi beatae accusantium maxime sequi vitae doloribus, quidem distinctio ea animi!")

  /**
   * A row inserted without model events, into a cold cache, is picked up by
   * `forceFetch(ALL)` with a single rememberForever.
   */
  method ForcedScenario() returns (fetched: Option<PostValue>, cached: Option<PostValue>, calls: seq<Call>)
    ensures fetched == Some(Rows([SilentPost])) && cached == fetched
    ensures calls == [Get(ALL), RememberForever(ALL)]
  {
    var m := Boot([SilentPost], map[]);
    CacheKeysRegistry([SilentPost]);
    fetched := m.ForceFetch(ALL);
    cached, calls := Cached(m.store, ALL), m.log;
  }

  /** With one post and a flushed cache, `withdraw(ALL)` returns the table and caches it. */
  method WithdrawScenario() returns (withdrawn: Option<PostValue>, cached: Option<PostValue>, calls: seq<Call>)
    ensures withdrawn == Some(Rows([DefaultPost])) && cached == withdrawn
    ensures calls == [Get(ALL), Get(ALL), RememberForever(ALL)]
  {
    var m := Boot([DefaultPost], map[]);
    CacheKeysRegistry([DefaultPost]);
    withdrawn := m.Withdraw(ALL);
    cached, calls := Cached(m.store, ALL), m.log;
  }

  /** A key outside `cacheKeys()` is not managed: null back, nothing called, nothing written. */
  method UnmanagedKeyScenario() returns (fetched: Option<PostValue>, calls: seq<Call>, untouched: bool)
    ensures fetched == None && calls == [] && untouched
  {
    var m := Boot([DefaultPost], map[]);
    CacheKeysRegistry([DefaultPost]);
    fetched := m.ForceFetch("unregistered_key");
    calls, untouched := m.log, m.store == map[];
  }
}
