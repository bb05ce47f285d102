# typed_sentinels — a Dafny model of the sentinel registry

`typed_sentinels` hands out placeholder objects ("sentinels") to use as
parameter defaults. `Sentinel(hint)` or `Sentinel[hint]()` returns the one
cached instance for its key, creating it on first use. The key is the hint
plus any pending subscription, so `Sentinel(h)` and `Sentinel[h]()` are two
equal but distinct objects. An instance is
falsy and immutable. It returns itself from indexing, calling, `copy` and
`deepcopy`. An instance created without a subscription pickles back to that
same cached instance; one created through `Sentinel[hint]()` does not (see
below).

The model has four modules:

- `Core` (`src/typed_sentinels/_core.py`) holds the registry and its instances:
  - `Value`: the Python objects the registry tells apart. These are opaque
    objects, `typing.Any`, `None`, the `Sentinel` class, a `Sentinel`
    instance and a `TypeVar`.
  - `Hint`: the values a sentinel may be built for.
  - The class `Sentinel`, whose one `const hint` is set by its constructor.
  - The class `Registry`, which holds the class-level state of `Sentinel`.
    Its `pending` field is the one-shot subscription slot `_cls_hint`; `None`
    stands for the private marker `OBJECT`. Its `cache` field is the instance
    cache `_cls_cache`, keyed by `Key(class name, consumed subscription,
    resolved hint)` as on line 53.
  - The method `Registry.New`, which models `__new__`. It is proved against
    the function `Lookup`, which decides whether the call raises, hits the
    cache or misses. `Lookup` is built on `Resolve`, which models the conflict
    check and the validation.
  - `Equals`, which models Python's `==`: `__eq__` first, then the reflected
    call, then identity. Objects other than sentinels have no `__eq__` of
    their own here, so when only the right operand is a sentinel its `__eq__`
    is asked first. An object whose own `__eq__` answers otherwise, such as
    `unittest.mock.ANY`, is outside the model.
  - `IsSentinel`, which models `is_sentinel`.
- `Exceptions` (`src/typed_sentinels/_exceptions.py`) holds the two error
  kinds, their class hierarchy and the messages their constructors build. It
  is generic in the type of the hint, as the source takes `Any`.
- `Text` holds the few `str` operations the code uses: `startswith`,
  `endswith`, slicing with negative bounds, and splitting and joining on
  newlines.
- `Wrappers` holds `Option` and `Result`.

`Registry.Valid` is the cache invariant `Coherent`, which every method
preserves:
- each entry is filed under its own hint;
- its subscription is either absent or equal to that hint;
- no instance is filed twice.

## Model

| member | source | states |
|---|---|---|
| `Core.Registry.constructor` | src/typed_sentinels/_core.py:17-18 | The cache starts empty and the subscription slot starts at the `OBJECT` marker. |
| `Core.Registry.Subscribe` | src/typed_sentinels/_core.py:27-31 | The slot holds the key, except that a `TypeVar` is stored as `Any`. The class itself is returned and the cache is untouched. |
| `Core.Registry.New` | src/typed_sentinels/_core.py:39-61 | The slot is empty after every call. An error leaves the cache unchanged. A success returns an instance whose hint is the resolved hint and which the cache holds under `(class name, subscription, hint)`. A hit returns the cached reference. A miss returns a fresh instance and adds exactly that one entry. The cache invariant is kept. |
| `Core.Registry.Evict` | src/typed_sentinels/_core.py:17 | Reclaiming an unreferenced instance removes exactly its key. Everything else, the slot included, stays as it was. The cache invariant is kept. |
| `Core.Resolve` | src/typed_sentinels/_core.py:43-51 | `SubscriptedTypeError(hint, subscripted)` is raised iff both a subscription and an explicit hint are present and they are unequal; this check comes before validation. Otherwise `InvalidHintError` is raised iff the effective hint is a sentinel, the class or `None`, and it carries that hint. An accepted hint is the explicit hint, else the subscription, else `Any`, and it equals the subscription whenever there is one. |
| `Core.Lookup` | src/typed_sentinels/_core.py:53-61 | A call raises exactly when `Resolve` fails. Otherwise, with the key `(class name, consumed subscription, resolved hint)`, it is a hit iff that key is in the cache, and a hit returns the instance stored under that key. A miss names exactly that key, which is absent from the cache, and carries the resolved hint. |
| `Core.HitHasResolvedHint` | src/typed_sentinels/_core.py:53-54 | In a coherent cache, a hit returns an instance whose hint is the resolved hint. |
| `Core.DefaultIsAny` | src/typed_sentinels/_core.py:47-48 | `Sentinel()` and `Sentinel(Any)` decide identically, so they share a key. |
| `Core.LookupAfterInsert` | src/typed_sentinels/_core.py:54-59 | Once a miss has stored an instance, the same subscription and hint find that very instance. |
| `Core.LookupAfterOtherEviction` | src/typed_sentinels/_core.py:54 | Evicting some other key does not change what a hit returns. |
| `Core.ReduceRoundTrip` | src/typed_sentinels/_core.py:89-90 | Calling the class from `__reduce__` on the reduce arguments, with no pending subscription, returns the identical cached instance when that instance was created without a subscription. |
| `Core.ReduceOfSubscribedInstance` | src/typed_sentinels/_core.py:53 | For an instance created through a subscription, the reduce arguments never find that instance again. |
| `Core.SubscribedAndPlainDiffer` | src/typed_sentinels/_core.py:53 | When both `Sentinel[h]()` and `Sentinel(h)` are cached, they are equal but distinct objects. |
| `Core.Sentinel.constructor` | src/typed_sentinels/_core.py:57-58 | The hint is stored once, at creation. |
| `Core.Sentinel.GetItem` | src/typed_sentinels/_core.py:33-34 | Indexing returns the same reference. |
| `Core.Sentinel.Call` | src/typed_sentinels/_core.py:36-37 | Calling returns the same reference. |
| `Core.Sentinel.Copy` | src/typed_sentinels/_core.py:83-84 | A shallow copy is the same reference. |
| `Core.Sentinel.DeepCopy` | src/typed_sentinels/_core.py:86-87 | A deep copy is the same reference, whatever the memo. |
| `Core.Sentinel.Bool` | src/typed_sentinels/_core.py:75-76 | The truth value is always `False`. |
| `Core.Sentinel.Eq` | src/typed_sentinels/_core.py:78-81 | The answer is `NotImplemented` iff the other object is not a sentinel. It is `True` iff the other object is a sentinel with an equal hint. |
| `Core.Equals` | src/typed_sentinels/_core.py:78-81 | Python's `==` (`__eq__` first, then the reflected call, then identity): two sentinels are equal iff their hints are equal; a sentinel and a non-sentinel are never equal; two non-sentinels are equal iff they are the same value. |
| `Core.EqualsSentinels` | src/typed_sentinels/_core.py:78-81 | Under Python's `==`, two sentinels are equal iff their hints are equal. |
| `Core.EqualsOnlySentinels` | src/typed_sentinels/_core.py:79-80 | A sentinel never compares equal to a non-sentinel, in either operand order. |
| `Core.Sentinel.Hash` | src/typed_sentinels/_core.py:72-73 | The hash is computed from the tuple `(class, hint)` by the given tuple hash, so it depends on the hint alone. |
| `Core.HashAgreesWithEquals` | src/typed_sentinels/_core.py:72-73 | Equal sentinels have equal hashes, for any hash of the tuple `(class, hint)`. |
| `Core.Sentinel.Reduce` | src/typed_sentinels/_core.py:89-90 | The result rebuilds the instance by calling the `Sentinel` class on `[hint]` alone. |
| `Core.Sentinel.ReduceEx` | src/typed_sentinels/_core.py:92-93 | `__reduce_ex__` gives the same result as `__reduce__`, for every protocol. |
| `Core.Sentinel.Repr` | src/typed_sentinels/_core.py:69-70 | The text starts with `<Sentinel: ` and ends with `>`. Removing that frame gives back `repr(hint)` exactly. |
| `Core.Sentinel.Str` | src/typed_sentinels/_core.py:63-67 | The text starts with `<Sentinel: ` and ends with `>`. Hint text of the form `<class '…'>` is cut to its `[8:-2]` slice, which is empty at 10 characters or fewer. Any other hint text is kept whole. |
| `Core.StrOfClass` | src/typed_sentinels/_core.py:64-67 | A hint printed as `<class 'name'>` gives `<Sentinel: name>`. |
| `Text.InnerSlice` | src/typed_sentinels/_core.py:66 | `s[8:-2]` is empty when `len(s) <= 10`. Otherwise it is `s` without its first 8 and last 2 characters. |
| `Core.Sentinel.SetAttr` | src/typed_sentinels/_core.py:95-97 | Setting an attribute always fails with an `AttributeError`. Its message is `Cannot modify attributes of ` followed by the sentinel's `repr`. Nothing is modified. |
| `Core.Sentinel.DelAttr` | src/typed_sentinels/_core.py:99-101 | Deleting an attribute always fails with an `AttributeError`. Its message is `Cannot delete attributes of ` followed by the sentinel's `repr`. Nothing is modified. |
| `Core.IsSentinel` | src/typed_sentinels/_core.py:121-123 | The result is true only for sentinel instances. With `typ` `None` it is exactly "is a sentinel". Otherwise it is "is a sentinel whose hint equals `typ`". |
| `Core.IsSentinelNarrows` | src/typed_sentinels/_core.py:121-123 | Passing a type only narrows the answer. The class `Sentinel` itself is never a sentinel. |
| `Exceptions.ErrorHierarchy` | src/typed_sentinels/_exceptions.py:4-19 | Both error kinds are subclasses of `SentinelError` and of `Exception`. Only `SubscriptedTypeError` is also a `TypeError`. Neither is an `AttributeError`. |
| `Exceptions.InvalidHintMessage` | src/typed_sentinels/_exceptions.py:11-16 | The message starts with the "cannot be `None`" line iff the hint is `None`; otherwise it starts with the "`Sentinel` instance or `Sentinel` itself" line. It always ends with `Received argument for hint: '` + `repr(hint)` + `'`. |
| `Exceptions.InvalidHintLines` | src/typed_sentinels/_exceptions.py:12-15 | When `repr(hint)` contains no newline, the message read line by line is exactly the reason line followed by the received-hint line. |
| `Exceptions.SubscriptedTypeMessage` | src/typed_sentinels/_exceptions.py:22-26 | The message starts with the fixed "must match" header line. |
| `Exceptions.SubscriptedTypeLines` | src/typed_sentinels/_exceptions.py:23-25 | When neither `repr` text contains a newline, the message read line by line is exactly the header, then the subscripted-type line, then the hint line. |

## Where the code and its documentation differ

This model follows the code.

- **Subscription is part of the key.** The key on `_core.py:53` includes the
  consumed subscription. So `Sentinel[str](str)` and `Sentinel(str)` are filed
  under different keys and are two distinct, equal objects. The same holds
  for `Sentinel[str]()` and `Sentinel(str)`.
  - `tests/test_sentinels.py:26` and `docs/snippets/snippets.py:50` say these
    are the same object.
  - `Core.SubscribedAndPlainDiffer` and `Core.ReduceOfSubscribedInstance`
    state what the code does instead. In particular, the reduce arguments of
    a subscription-created instance rebuild a different instance.
- **Only three kinds of hint are rejected.** The code (`_core.py:50`)
  rejects `None`, the class and its instances, and nothing else. So
  `Sentinel(...)`, `Sentinel(True)` and `Sentinel(bool)` are accepted, as
  `tests/test_threading.py:309` expects for `bool`.
- **The conflict test is `!=` alone** (`_core.py:43`). An explicit hint that
  is a different object from the subscribed one, but equal to it, is not a
  conflict.

## Left out

- The class lock and double-checked locking (`_core.py:19,55-56`). Construction is one sequential method, so the re-check under the lock is the same as the first lookup. The race between threads on the shared subscription slot is not modelled.
- Weak references and garbage collection. The weak map is a plain map. Reclaiming an entry is the explicit `Registry.Evict`, callable for any key: reachability is not modelled, so an instance still referenced can be evicted too.
- Subclasses. `@final` forbids them only to a type checker; at run time a subclass would share the inherited `_cls_cache` (`_core.py:17`) and be told apart only by `cls.__name__` in the key (`_core.py:53`). The model has no subclasses, so the class-name component of the key is the constant `"Sentinel"`.
- Unhashable hints and a raising `==`. `Value` stands only for hashable objects whose `==` does not raise. Any other hint, such as `Sentinel([])`, raises `TypeError` when the key is looked up (`_core.py:54`), after the subscription slot has been cleared and with the cache unchanged; a hint whose `!=` raises does so already at the conflict test (`_core.py:43`), when both a subscription and an explicit hint are given.
- Python's text and hashing for arbitrary objects. What `str`, `repr` and `hash` give is a function parameter wherever it is used.
- Core.Equals: objects other than sentinels are equal exactly when they are the same `Value`. An object with its own structural `==`, such as `Callable[..., str]`, is represented by one `Opaque` id for all its equal copies.
- Core.Sentinel.Eq: compares hints with value equality rather than a recursive Python `==`. The two agree because a hint is never itself a sentinel (the `Hint` type).
- Static-typing behaviour is not modelled: `TypeGuard`, `cast`, `@final`, the generic parameter `T`, and the type-checker tests.
- Python object-model details are not modelled: `__slots__`, weak-reference support, and the `hint` property (it is the `const hint` field).
- `__setattr__` and `__delattr__` state no "unchanged" clause of their own: `hint` is a `const`, so nothing can change it.
