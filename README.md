# cache-machine, modelled in Dafny

The `CacheMachine` trait lets an Eloquent model declare named cache entries, each bound to a producer closure that reads the model's table. `cacheMachine($items)` wires every key to the model's lifecycle events:

- `saving` and `deleting` run `Cache::forget(key)`;
- `saved` and `deleted` run `Cache::rememberForever(key, producer)`.

So every save or delete first invalidates the key and then regenerates it from the new table. The read path is:

- `withdraw(key)` returns the cached entry, or falls back to `forceFetch(key)`;
- `forceFetch(key)` fills the slot of a key found in `cacheKeys()`, but only when the slot is empty.

The `Post` test model supplies the concrete registry: `all_posts` is every row, and `select_posts` is an id => title index.

Files:
- `wrappers.dfy`: `Option`, where `None` plays PHP `null`.
- `cache_machine.dfy`, module `CacheMachine`, in two parts:
  - the specification: handler lists as values, what running them does to the store, and lemmas about it;
  - the class `CachedModel`, which holds the cache store, a log of facade calls, the model's table and the four event lists as fields, and whose methods are proved against that specification.
- `posts.dfy`, module `Posts`: the `Post` row, its two producers and its registry.
- `post_scenarios.dfy`, module `PostScenarios`: the test suite's scenarios, replayed against `CachedModel`.

Conventions of the model:
- A producer is a pure function from the table's rows to a value or null. The store is a `map`; an absent key reads as null.
- Storing a null producer result leaves the slot empty, like Laravel, where `get` returns null for it either way.
- `log` records each call on the Cache facade (`get`, `forget`, `rememberForever`). These are the calls the tests count.
- The ghost field `bindings` lists every pair passed to `cacheMachine`. `Valid()` says the four event lists are exactly what those registrations appended.

Where the code's behaviour is easy to misread, the model follows the code:
- `forceFetch` on a registered key whose entry is present returns null, not the entry, because `forceSave` falls off the end (src/CacheMachine.php:106-114). The entry is never overwritten.
- On a miss, `forceSave` returns a second, direct call of the registry's producer (src/CacheMachine.php:112). It does not return the value `rememberForever` stored. `ForceSave` states this. `ForceFetch` then shows that, with the same producer over the same rows, the returned value is the cached one.
- `withdraw` returns null for a registered key only when its entry is absent and its producer yields null. The `Posts` producers never do.
- The registry handed to `cacheMachine` is any ordered array. Registering the same items again appends duplicate handlers. After a mutation, a key bound more than once holds the first non-null value among its producers, in registration order (`FirstValue`).

## Model

| member | source | states |
|---|---|---|
| CacheMachine.KeySet | src/CacheMachine.php:47 | the key set contains every item's key and nothing else |
| CacheMachine.Lookup | src/CacheMachine.php:47-48 | a producer is found exactly when the key is in the array, and it is the one bound to that key |
| CacheMachine.HandlersShape | src/CacheMachine.php:21-95 | n items give exactly n forget handlers and n rememberForever handlers, the i-th for the i-th item's key and producer |
| CacheMachine.HandlersAppend | src/CacheMachine.php:21-26 | registering a then b appends both handler lists, with no deduplication |
| CacheMachine.CallsOf | src/CacheMachine.php:71-94 | one facade call per handler, in order: forget for a before-hook, rememberForever for an after-hook |
| CacheMachine.FirstValueUnbound | src/CacheMachine.php:88-94 | a key bound by no item never receives a value from the after-hooks |
| CacheMachine.FirstValueDistinct | src/CacheMachine.php:88-94 | with each key bound once, the value regenerated for a key is its producer's output on the table |
| CacheMachine.RunBefores | src/CacheMachine.php:69-78 | the before-hooks remove exactly the registered keys and touch nothing else |
| CacheMachine.RunAfters | src/CacheMachine.php:86-95 | the after-hooks never clobber a present entry; an empty registered slot gets its producers' first non-null value; no other slot is filled |
| CacheMachine.MutationRegenerates | src/CacheMachine.php:69-95 | after forget, mutate, rememberForever, every registered key holds its producers' value on the new table, and every unregistered slot is unchanged |
| CacheMachine.MutationCalls | src/CacheMachine.php:69-95 | a mutation makes exactly one forget per binding, then exactly one rememberForever per binding, in registration order |
| CacheMachine.CachedModel.constructor | src/CacheMachine.php:7-14 | a model starts with no handlers on its four event lists and an empty log |
| CacheMachine.CachedModel.CacheGet | src/CacheMachine.php:36 | returns the entry or null, logs one get, writes nothing |
| CacheMachine.CachedModel.CacheForget | src/CacheMachine.php:72 | removes that one key and logs one forget |
| CacheMachine.CachedModel.CacheRememberForever | src/CacheMachine.php:89 | a present entry is returned unchanged; otherwise the producer's value is stored and returned; logs one rememberForever |
| CacheMachine.CachedModel.CacheMachine | src/CacheMachine.php:21-26 | appends Befores(items) to saving and deleting and Afters(items) to saved and deleted, in iteration order, and keeps Valid |
| CacheMachine.CachedModel.GenerateCache | src/CacheMachine.php:58-62 | binds one key to all four event lists and keeps Valid |
| CacheMachine.CachedModel.ModelSavingOrDeleting | src/CacheMachine.php:69-78 | appends one forget handler for the key to saving and to deleting |
| CacheMachine.CachedModel.ModelSavedOrDeleted | src/CacheMachine.php:86-95 | appends one rememberForever handler for the key and producer to saved and to deleted |
| CacheMachine.CachedModel.Fire | src/CacheMachine.php:71-94 | running an event's handlers in order leaves the store as RunStore says and logs one call per handler |
| CacheMachine.CachedModel.Save | src/CacheMachine.php:69-95 | a save regenerates every registered key from the new table, leaves every other slot unchanged, and logs all forgets then all rememberForevers |
| CacheMachine.CachedModel.Delete | src/CacheMachine.php:69-95 | the same for a delete, through the deleting and deleted lists |
| CacheMachine.CachedModel.Withdraw | src/CacheMachine.php:34-37 | a hit returns the entry with no write; a registered miss stores and returns the producer's value; an unregistered miss returns null and writes nothing; the result is null exactly in those null cases; a returned value is the cached one; other keys are untouched |
| CacheMachine.CachedModel.ForceFetch | src/CacheMachine.php:45-50 | an unregistered key returns null with no calls and no writes; a present entry gives null and is not overwritten; an empty registered slot is filled and its value returned |
| CacheMachine.CachedModel.ForceSave | src/CacheMachine.php:104-114 | a present entry gives null and no write; on a miss it stores the callback's value and returns a separate call of the registry's producer |
| Posts.CacheKeysRegistry | tests/Models/Post.php:14-40 | the registry binds exactly all_posts and select_posts, once each: ALL to the whole table, SELECT to the title index |
| Posts.TitleIndexKeys | tests/Models/Post.php:36 | the id => title index has one key per row id and no other |
| Posts.TitleIndexTitle | tests/Models/Post.php:36 | with distinct ids, each row's id maps to that row's title |
| Posts.SelectKeysAreAllIds | tests/Models/Post.php:35-36 | the keys of the SELECT value are the ids of the rows in the ALL value |
| Posts.PostMutationCaches | tests/Models/Post.php:32-40 | after any save or delete, ALL caches the new table in table order, SELECT its title index, and other slots are unchanged |
| PostScenarios.Boot | src/CacheMachine.php:21-26 | a Post model with its own cacheKeys() registered, over the given table and cache |
| PostScenarios.CreateScenario | tests/CacheMachineTest.php:15-44 | creating the first post caches ALL as that one post, with one forget and one rememberForever per key |
| PostScenarios.UpdateScenario | tests/CacheMachineTest.php:46-79 | updating the post's content caches ALL as the one updated post |
| PostScenarios.DeleteScenario | tests/CacheMachineTest.php:81-141 | deleting the first of three posts caches posts 2 and 3, in order, with one forget then one rememberForever per key |
| PostScenarios.ForcedScenario | tests/CacheMachineTest.php:143-179 | a row inserted without events is picked up by forceFetch(ALL) with a single rememberForever, and the value returned is the one cached |
| PostScenarios.WithdrawScenario | tests/CacheMachineTest.php:181-216 | on a flushed cache, withdraw(ALL) returns the table and caches it with one rememberForever |
| PostScenarios.UnmanagedKeyScenario | src/CacheMachine.php:45-50 | forceFetch of a key outside cacheKeys() returns null, makes no call and writes nothing |

## Left out

- The Laravel cache backend: drivers, TTL and `Cache::flush`. The store is a map with `get`, `forget` and `rememberForever` by their visible contract. The `get` that `rememberForever` makes internally is not logged.
- Eloquent's event dispatcher and query builder. A mutation is an arbitrary new table, bracketed by the lists' handlers. A `saving` handler that cancels the save is not modelled (the trait's closures return null and never cancel), and neither are the `creating`/`updating`/`created`/`updated` events.
- Producer failures: producers are total functions, so the "mutation committed, cache cold" outcome of a throwing producer is not modelled. Producer invocations are not logged.
- The `is_callable($callback)` test in `forceSave` (src/CacheMachine.php:108): every producer here is callable, so it always holds.
- `boot()`: the `Post` model never calls `cacheMachine`, so the scenarios register `cacheKeys()` explicitly (`Boot`).
- `Cache::flush()` and the event-less `DB::table('posts')->insert(...)`: the scenarios start from the state those calls leave, a cold cache over the given rows.
- Timestamps, `published_at` and datetime casting: they are not fields of a row.
- The `category` relationship and the test that creates a post with a category (tests/CacheMachineTest.php:218-248): `category_id` is not among the model's fillable attributes (tests/Models/Post.php:18-22), so `Post::create` drops it and the cached value is exactly the create scenario's. tests/Models/Category.php is not part of this model.
- The service provider, facade, console command and migration: they have no caching behaviour.
- TitleIndex: the SELECT value is a `map`, so the row order in which `mapWithKeys` lays out its keys is not modelled; only its key set and values are.
- Concurrent mutations: the trait takes no locks and relies on the store.
