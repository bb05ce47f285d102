/**
 * The sentinel registry: a get-or-create cache that hands out one immutable,
 * falsy placeholder object per key, and the value contract of those objects.
 *
 * Python objects are modelled by `Value`, which tells apart exactly the
 * objects the registry treats differently. What Python's `str`, `repr` and
 * `hash` produce for an arbitrary object is not modelled: those functions
 * are parameters wherever they are used.
 */
module Core {
  import opened Wrappers
  import opened Text
  import opened Exceptions

  /** A Python object, as far as the registry can tell objects apart. */
  datatype Value =
    | Opaque(id: nat)          // any other object: `str`, `bytes`, `bool`, `Callable[..., str]`, `123`, ...
    | AnyType                  // `typing.Any`
    | NoneValue                // `None`
    | SentinelClass            // the class `Sentinel` itself
    | Instance(inst: Sentinel) // an instance of `Sentinel`
    | TypeVarValue(id: nat)    // a `typing.TypeVar`

  /** The hints `__new__` refuses with `InvalidHintError`: a sentinel, the sentinel class, or `None`. */
  predicate IsInvalidHint(v: Value)
  {
    v.Instance? || v == SentinelClass || v == NoneValue
  }

  /** A hint a sentinel can be built for. */
  type Hint = v: Value | !IsInvalidHint(v) witness AnyType

  /** `cls.__name__`, the first component of every cache key. */
  const ClassName := "Sentinel"

  /** The result of `__reduce__`: the callable to rebuild with, and its arguments. */
  datatype Reduced = Reduced(callable: Value, args: seq<Value>)

  datatype AttributeError = AttributeError(message: string)

  /** An immutable placeholder. Its one field is set once, at construction. */
  class Sentinel {
    const hint: Hint

    /** The privileged path of `__new__` (lines 57-58) that stores the hint. */
    constructor (h: Hint)
      ensures hint == h
    {
      hint := h;
    }

    /** `s[key]` returns the sentinel itself. */
    function GetItem(key: Value): (r: Sentinel)
      ensures r == this
    {
      this
    }

    /** `s(*args)` returns the sentinel itself. */
    function Call(args: seq<Value>): (r: Sentinel)
      ensures r == this
    {
      this
    }

    /** `copy.copy(s)` is `s`. */
    function Copy(): (r: Sentinel)
      ensures r == this
    {
      this
    }

    /** `copy.deepcopy(s, memo)` is `s`, whatever the memo. */
    function DeepCopy<M>(memo: M): (r: Sentinel)
      ensures r == this
    {
      this
    }

    /** `bool(s)` is always `False`. */
    function Bool(): (b: bool)
      ensures !b
    {
      false
    }

    /**
     * `s.__eq__(other)`: `None` stands for `NotImplemented`, returned for
     * anything that is not a sentinel. Since no sentinel's hint is itself a
     * sentinel, Python's `==` on two hints is `==` on their values.
     */
    function Eq(other: Value): (r: Option<bool>)
      ensures r.None? <==> !other.Instance?
      ensures r == Some(true) <==> other.Instance? && other.inst.hint == hint
    {
      if !other.Instance? then None
      else Some(other.inst.hint == hint)
    }

    /** `hash(s)`, computed from `(type(s), s.hint)` by the given tuple hash. */
    function Hash(tupleHash: (Value, Value) -> int): (h: int)
      ensures h == tupleHash(SentinelClass, hint)
    {
      tupleHash(SentinelClass, hint)
    }

    /** `s.__reduce__()`: rebuild by calling the class on the hint alone. */
    function Reduce(): (r: Reduced)
      ensures r.callable == SentinelClass && r.args == [hint]
    {
      Reduced(SentinelClass, [hint])
    }

    /** `s.__reduce_ex__(protocol)` ignores the protocol. */
    function ReduceEx(protocol: int): (r: Reduced)
      ensures r == Reduce()
    {
      Reduce()
    }

    /**
     * `repr(s)`: the hint's `repr` framed by `<Sentinel: ` and `>`, and
     * recovered whole by removing that frame.
     */
    function Repr(reprOf: Value -> string): (r: string)
      ensures StartsWith(r, "<Sentinel: ") && EndsWith(r, ">")
      ensures |r| == |reprOf(hint)| + 12 && r[11..|r| - 1] == reprOf(hint)
    {
      "<Sentinel: " + reprOf(hint) + ">"
    }

    /**
     * `str(s)`: the hint's `str` framed by `<Sentinel: ` and `>`, except that
     * text of the form `<class '...'>` keeps only what lies between the
     * quotes (`[8:-2]`), which is empty for text of 10 characters or fewer.
     */
    function Str(strOf: Value -> string): (r: string)
      ensures StartsWith(r, "<Sentinel: ") && EndsWith(r, ">")
      ensures !IsClassText(strOf(hint)) ==> r == "<Sentinel: " + strOf(hint) + ">"
      ensures IsClassText(strOf(hint)) && |strOf(hint)| <= 10 ==> r == "<Sentinel: >"
      ensures IsClassText(strOf(hint)) && |strOf(hint)| > 10
           ==> r == "<Sentinel: " + strOf(hint)[8..|strOf(hint)| - 2] + ">"
    {
      var name := strOf(hint);
      var shown := if IsClassText(name) then Slice(name, 8, -2) else name;
      InnerSlice(name);
      "<Sentinel: " + shown + ">"
    }

    /** Setting any attribute fails, naming the sentinel; nothing is changed. */
    method SetAttr(name: string, value: Value, reprOf: Value -> string) returns (e: AttributeError)
      ensures StartsWith(e.message, "Cannot modify attributes of <Sentinel: ")
      ensures EndsWith(e.message, Repr(reprOf))
      ensures e.message[..28] == "Cannot modify attributes of " && e.message[28..] == Repr(reprOf)
    {
      e := AttributeError("Cannot modify attributes of " + Repr(reprOf));
    }

    /** Deleting any attribute fails, naming the sentinel; nothing is changed. */
    method DelAttr(name: string, reprOf: Value -> string) returns (e: AttributeError)
      ensures StartsWith(e.message, "Cannot delete attributes of <Sentinel: ")
      ensures EndsWith(e.message, Repr(reprOf))
      ensures e.message[..28] == "Cannot delete attributes of " && e.message[28..] == Repr(reprOf)
    {
      e := AttributeError("Cannot delete attributes of " + Repr(reprOf));
    }
  }

  /** Text of the form `<class '...'>`, as `str` gives for a class. */
  predicate IsClassText(t: string)
  {
    StartsWith(t, "<class '") && EndsWith(t, "'>")
  }

  /** `str` of a sentinel whose hint prints as `<class 'name'>` is `<Sentinel: name>`. */
  lemma StrOfClass(s: Sentinel, strOf: Value -> string, name: string)
    requires strOf(s.hint) == "<class '" + name + "'>"
    ensures s.Str(strOf) == "<Sentinel: " + name + ">"
  {
  }

  /**
   * Python's `a == b`: a sentinel's `__eq__` is asked first; when it answers
   * `NotImplemented` the reflected call is tried, and when that does too,
   * identity decides. Objects other than sentinels are equal only to
   * themselves.
   */
  function Equals(a: Value, b: Value): (r: bool)
    ensures a.Instance? && b.Instance? ==> (r <==> a.inst.hint == b.inst.hint)
    ensures a.Instance? != b.Instance? ==> !r
    ensures !a.Instance? && !b.Instance? ==> (r <==> a == b)
  {
    if a.Instance? then GetOr(a.inst.Eq(b), a == b)
    else if b.Instance? then GetOr(b.inst.Eq(a), a == b)
    else a == b
  }

  /** `GetOr` on Option, as Python's fallback from `NotImplemented`. */
  function GetOr<T>(o: Option<T>, default: T): T
  {
    match o
    case Some(v) => v
    case None => default
  }

  /** Two sentinels are equal exactly when their hints are equal. */
  lemma EqualsSentinels(a: Sentinel, b: Sentinel)
    ensures Equals(Instance(a), Instance(b)) <==> a.hint == b.hint
  {
  }

  /** A sentinel is never equal to anything that is not a sentinel, in either order. */
  lemma EqualsOnlySentinels(s: Sentinel, v: Value)
    requires !v.Instance?
    ensures !Equals(Instance(s), v) && !Equals(v, Instance(s))
  {
  }

  /** Equal sentinels have equal hashes, whatever the tuple hash. */
  lemma HashAgreesWithEquals(a: Sentinel, b: Sentinel, tupleHash: (Value, Value) -> int)
    requires Equals(Instance(a), Instance(b))
    ensures a.Hash(tupleHash) == b.Hash(tupleHash)
  {
  }

  /** A cache key, as built on line 53: class name, consumed subscription, resolved hint. */
  datatype Key = Key(className: string, subscripted: Option<Value>, hint: Value)

  /** The explicit hint, else the subscribed one, else `Any` (lines 45-48). */
  function Effective(pending: Option<Value>, explicit: Option<Value>): Value
  {
    if explicit.Some? then explicit.value
    else if pending.Some? then pending.value
    else AnyType
  }

  /** Both a subscription and an explicit hint were given, and they differ (line 43). */
  predicate Conflict(pending: Option<Value>, explicit: Option<Value>)
  {
    pending.Some? && explicit.Some? && !Equals(explicit.value, pending.value)
  }

  /**
   * The checks of `__new__` before the cache is consulted (lines 43-51): a
   * conflict is reported before the hint is validated, and an accepted hint
   * is the effective one, which equals the subscription whenever there was one.
   */
  function Resolve(pending: Option<Value>, explicit: Option<Value>): (r: Result<Hint, SentinelError<Value>>)
    ensures r.Failure? && r.error.SubscriptedTypeError? <==> Conflict(pending, explicit)
    ensures r.Failure? && r.error.SubscriptedTypeError?
         ==> r.error == SubscriptedTypeError(explicit.value, pending.value)
    ensures r.Failure? && r.error.InvalidHintError?
        <==> !Conflict(pending, explicit) && IsInvalidHint(Effective(pending, explicit))
    ensures r.Failure? && r.error.InvalidHintError? ==> r.error.hint == Effective(pending, explicit)
    ensures r.Success? ==> r.value == Effective(pending, explicit)
    ensures r.Success? && pending.Some? ==> r.value == pending.value
  {
    if Conflict(pending, explicit) then Failure(SubscriptedTypeError(explicit.value, pending.value))
    else
      var hint := Effective(pending, explicit);
      if IsInvalidHint(hint) then Failure(InvalidHintError(hint))
      else Success(hint)
  }

  /** What one construction call does with a given cache and pending subscription. */
  datatype Decision =
    | Raise(error: SentinelError<Value>)
    | Hit(inst: Sentinel)
    | Miss(key: Key, hint: Hint)

  function CacheKey(pending: Option<Value>, hint: Value): Key
  {
    Key(ClassName, pending, hint)
  }

  /**
   * The specification of `Sentinel.__new__`: raise, return the cached
   * instance, or create one under a key not yet in the cache.
   */
  function Lookup(cache: map<Key, Sentinel>, pending: Option<Value>, explicit: Option<Value>): (d: Decision)
    ensures d.Raise? <==> Resolve(pending, explicit).Failure?
    ensures d.Hit? ==> d.inst in cache.Values
    ensures d.Miss? ==> d.key !in cache && d.key.hint == d.hint && d.key.subscripted == pending
    ensures Resolve(pending, explicit).Success? ==>
      var k := CacheKey(pending, Resolve(pending, explicit).value);
      (d.Hit? <==> k in cache) && (d.Hit? ==> d.inst == cache[k]) &&
      (d.Miss? ==> d.key == k && d.hint == Resolve(pending, explicit).value)
  {
    match Resolve(pending, explicit)
    case Failure(e) => Raise(e)
    case Success(hint) =>
      var key := CacheKey(pending, hint);
      if key in cache then Hit(cache[key]) else Miss(key, hint)
  }

  /**
   * The invariant of the registry's cache: every entry is filed under its
   * own hint and the class name, under no subscription or a subscription
   * equal to the hint, and no instance is filed twice.
   */
  ghost predicate Coherent(cache: map<Key, Sentinel>)
  {
    && (forall k | k in cache ::
          k.className == ClassName && cache[k].hint == k.hint
          && (k.subscripted.None? || k.subscripted == Some(k.hint)))
    && (forall k1, k2 | k1 in cache && k2 in cache && k1 != k2 :: cache[k1] != cache[k2])
  }

  /** In a coherent cache, a hit returns an instance whose hint is the resolved hint. */
  lemma HitHasResolvedHint(cache: map<Key, Sentinel>, pending: Option<Value>, explicit: Option<Value>)
    requires Coherent(cache)
    requires Lookup(cache, pending, explicit).Hit?
    ensures Resolve(pending, explicit).Success?
    ensures Lookup(cache, pending, explicit).inst.hint == Resolve(pending, explicit).value
  {
  }

  /** `Sentinel()` and `Sentinel(Any)` resolve to the same key. */
  lemma DefaultIsAny(cache: map<Key, Sentinel>)
    ensures Lookup(cache, None, None) == Lookup(cache, None, Some(AnyType))
  {
  }

  /**
   * Asking again with the same subscription and hint, once the instance is
   * stored, returns that very instance.
   */
  lemma LookupAfterInsert(cache: map<Key, Sentinel>, pending: Option<Value>, explicit: Option<Value>, s: Sentinel)
    requires Lookup(cache, pending, explicit).Miss?
    ensures Lookup(cache[Lookup(cache, pending, explicit).key := s], pending, explicit) == Hit(s)
  {
  }

  /** Evicting another key does not disturb a hit. */
  lemma LookupAfterOtherEviction(cache: map<Key, Sentinel>, pending: Option<Value>, explicit: Option<Value>, k: Key)
    requires Lookup(cache, pending, explicit).Hit?
    requires Resolve(pending, explicit).Success? ==> k != CacheKey(pending, Resolve(pending, explicit).value)
    ensures Lookup(cache - {k}, pending, explicit) == Lookup(cache, pending, explicit)
  {
  }

  /**
   * Unpickling calls the class on the reduce arguments; with no pending
   * subscription this finds an instance that was created without one.
   */
  lemma ReduceRoundTrip(cache: map<Key, Sentinel>, s: Sentinel)
    requires CacheKey(None, s.hint) in cache && cache[CacheKey(None, s.hint)] == s
    ensures s.Reduce().callable == SentinelClass
    ensures Lookup(cache, None, Some(s.Reduce().args[0])) == Hit(s)
  {
  }

  /**
   * An instance created through a subscription is not found again by the
   * reduce arguments: they carry only the hint, so they name another key.
   */
  lemma ReduceOfSubscribedInstance(cache: map<Key, Sentinel>, s: Sentinel)
    requires Coherent(cache)
    requires CacheKey(Some(s.hint), s.hint) in cache && cache[CacheKey(Some(s.hint), s.hint)] == s
    ensures Lookup(cache, None, Some(s.Reduce().args[0])) != Hit(s)
  {
  }

  /**
   * `Sentinel[h]()` and `Sentinel(h)` are filed under different keys: when
   * both are cached they are equal, yet two distinct objects.
   */
  lemma SubscribedAndPlainDiffer(cache: map<Key, Sentinel>, h: Hint)
    requires Coherent(cache)
    requires CacheKey(Some(h), h) in cache && CacheKey(None, h) in cache
    ensures cache[CacheKey(Some(h), h)] != cache[CacheKey(None, h)]
    ensures Equals(Instance(cache[CacheKey(Some(h), h)]), Instance(cache[CacheKey(None, h)]))
  {
  }

  /**
   * The class-level state of `Sentinel`: the weak instance cache and the
   * one-shot slot for a subscribed hint (`None` standing for the private
   * marker `OBJECT`). The lock is not modelled; the collector's reclaiming
   * of an unreferenced instance is the explicit `Evict`.
   */
  class Registry {
    var pending: Option<Value>
    var cache: map<Key, Sentinel>

    ghost predicate Valid()
      reads this
    {
      Coherent(cache)
    }

    /** The class attributes at class creation (lines 17-18). */
    constructor ()
      ensures Valid()
      ensures pending == None && cache == map[]
    {
      pending := None;
      cache := map[];
    }

    /**
     * `Sentinel[key]`: stash the key for the next construction, a type
     * variable as `Any`, and return the class itself.
     */
    method Subscribe(key: Value) returns (cls: Value)
      modifies this`pending
      ensures pending == Some(if key.TypeVarValue? then AnyType else key)
      ensures cls == SentinelClass
      ensures cache == old(cache)
    {
      pending := Some(key);
      if key.TypeVarValue? {
        pending := Some(AnyType);
      }
      cls := SentinelClass;
    }

    /**
     * `Sentinel(hint)` or `Sentinel()`: consume the pending subscription,
     * then raise, return the cached instance, or create and cache a new one,
     * as `Lookup` decides. The slot is empty afterwards in every case, and
     * the cache changes only by the one entry a miss adds.
     */
    method New(explicit: Option<Value>) returns (r: Result<Sentinel, SentinelError<Value>>)
      requires Valid()
      modifies this
      ensures Valid()
      ensures pending == None
      ensures r.Failure? ==> cache == old(cache)
      ensures r.Success? ==> r.value.hint == Effective(old(pending), explicit)
      ensures r.Success? ==> var k := CacheKey(old(pending), r.value.hint); k in cache && cache[k] == r.value
      ensures match Lookup(old(cache), old(pending), explicit)
        case Raise(e) => r == Failure(e) && cache == old(cache)
        case Hit(s) => r == Success(s) && cache == old(cache)
        case Miss(k, h) =>
          r.Success? && fresh(r.value) && r.value.hint == h && cache == old(cache)[k := r.value]
    {
      var subscripted := pending;
      if subscripted.Some? {
        pending := None;
      }
      if explicit.Some? && subscripted.Some? && !Equals(explicit.value, subscripted.value) {
        return Failure(SubscriptedTypeError(explicit.value, subscripted.value));
      }
      var hint: Value;
      if explicit.None? && subscripted.Some? {
        hint := subscripted.value;
      } else if explicit.None? {
        hint := AnyType;
      } else {
        hint := explicit.value;
      }
      if hint.Instance? || hint == SentinelClass || hint == NoneValue {
        return Failure(InvalidHintError(hint));
      }
      var key := Key(ClassName, subscripted, hint);
      if key in cache {
        return Success(cache[key]);
      }
      var inst := new Sentinel(hint);
      cache := cache[key := inst];
      r := Success(inst);
    }

    /** The weak map drops the entry for `k` once its instance is no longer referenced. */
    method Evict(k: Key)
      requires Valid()
      modifies this`cache
      ensures Valid()
      ensures cache == old(cache) - {k}
    {
      cache := cache - {k};
    }
  }

  /**
   * `is_sentinel(obj, typ)`: `obj` is a sentinel and, unless `typ` is
   * `None`, its hint equals `typ`.
   */
  function IsSentinel(obj: Value, typ: Value): (r: bool)
    ensures r ==> obj.Instance?
    ensures typ == NoneValue ==> (r <==> obj.Instance?)
    ensures typ != NoneValue ==> (r <==> obj.Instance? && obj.inst.hint == typ)
  {
    if typ != NoneValue then obj.Instance? && Equals(obj.inst.hint, typ)
    else obj.Instance?
  }

  /** Narrowing by a type only ever turns a `True` into a `False`; the class itself is never a sentinel. */
  lemma IsSentinelNarrows(obj: Value, typ: Value)
    ensures IsSentinel(obj, typ) ==> IsSentinel(obj, NoneValue)
    ensures !IsSentinel(SentinelClass, typ)
  {
  }
}
