/**
 * The caching strategies built on the cache manager: cache-aside reads, write-through writes,
 * and tag lists for bulk invalidation. Every store call they make is taken to succeed; the
 * fetch and persist callbacks either return or reject.
 */
module CacheStrategies {
  import opened Common
  import opened CacheKeys
  import opened CacheManager

  // ---------------------------------------------------------------- cache-aside

  /** The outcome of `getOrSet`: the value or rejection returned, whether it fetched, and the store after. */
  datatype Aside = Aside(value: Result<Json, string>, fetched: bool, entries: map<string, Entry>)

  /** `getOrSet(key, fetchFn, ttl = CACHE_DURATIONS.DEFAULT)`, with `fetch` the outcome `fetchFn` would have. */
  function GetOrSetOutcome(entries: map<string, Entry>, key: string, fetch: Result<Json, string>, ttl: nat := DEFAULT_TTL): Aside {
    var cached := Read(entries, key);
    if cached != JNull then Aside(Ok(cached), false, entries)
    else
      match fetch
      case Err(e) => Aside(Err(e), true, entries)
      case Ok(val) => Aside(Ok(val), true, Write(entries, key, val, ttl))
  }

  /**
   * Cache-aside: a hit returns the cached value with no fetch and no write; a miss (`null`,
   * also for a stored `null`) fetches once and stores what it returns, while a rejected fetch
   * propagates and writes nothing. Afterwards the key holds the returned value, so a repeat
   * with a non-null value is a hit that fetches nothing, whatever its fetch would return.
   */
  lemma CacheAside(entries: map<string, Entry>, key: string, fetch: Result<Json, string>, ttl: nat, fetch': Result<Json, string>, ttl': nat)
    ensures var out := GetOrSetOutcome(entries, key, fetch, ttl);
      && (Read(entries, key) != JNull ==> out == Aside(Ok(Read(entries, key)), false, entries))
      && (Read(entries, key) == JNull ==> out.fetched && out.value == fetch)
      && (Read(entries, key) == JNull && fetch.Ok? ==> out.entries == Write(entries, key, fetch.value, ttl))
      && (fetch.Err? ==> out.entries == entries)
      && (out.value.Ok? ==> Read(out.entries, key) == out.value.value)
      && (out.value.Ok? && out.value.value != JNull ==>
            GetOrSetOutcome(out.entries, key, fetch', ttl') == Aside(out.value, false, out.entries))
  {
    var out := GetOrSetOutcome(entries, key, fetch, ttl);
    if out.value.Ok? {
      ReadAfterWrite(entries, key, out.value.value, ttl, key);
    }
  }

  method GetOrSet(store: Store, key: string, fetch: Result<Json, string>, ttl: nat := DEFAULT_TTL) returns (r: Result<Json, string>, fetched: bool)
    modifies store
    ensures Aside(r, fetched, store.entries) == GetOrSetOutcome(old(store.entries), key, fetch, ttl)
  {
    var cached := Get(store, key, true);
    if cached != JNull {
      return Ok(cached), false;
    }
    fetched := true;
    match fetch
    case Err(e) =>
      r := Err(e);
    case Ok(val) =>
      var _ := Set(store, key, val, true, ttl);
      r := Ok(val);
  }

  // ---------------------------------------------------------------- write-through

  /** `setAndCache(key, value, persistFn, ttl = CACHE_DURATIONS.DEFAULT)`: the store after, and what the call returns or rejects with. */
  function SetAndCacheOutcome(entries: map<string, Entry>, key: string, value: Json, persist: Json -> Result<(), string>, ttl: nat := DEFAULT_TTL): (Result<(), string>, map<string, Entry>) {
    match persist(value)
    case Err(e) => (Err(e), entries)
    case Ok(_) => (Ok(()), Write(entries, key, value, ttl))
  }

  /**
   * Write-through: the cache is written only after `value` was persisted, and then holds
   * exactly the persisted value; a rejected persist propagates and leaves the cache as it was.
   */
  lemma WriteThrough(entries: map<string, Entry>, key: string, value: Json, persist: Json -> Result<(), string>, ttl: nat, other: string)
    ensures var (r, after) := SetAndCacheOutcome(entries, key, value, persist, ttl);
      && (r.Ok? <==> persist(value).Ok?)
      && (r.Err? ==> r.error == persist(value).error && after == entries)
      && (r.Ok? ==> Read(after, key) == value && after[key].ttl == ttl)
      && (other != key ==> Read(after, other) == Read(entries, other))
  {}

  method SetAndCache(store: Store, key: string, value: Json, persist: Json -> Result<(), string>, ttl: nat := DEFAULT_TTL) returns (r: Result<(), string>)
    modifies store
    ensures (r, store.entries) == SetAndCacheOutcome(old(store.entries), key, value, persist, ttl)
  {
    var persisted := persist(value);
    if persisted.Err? {
      return Err(persisted.error);
    }
    var _ := Set(store, key, value, true, ttl);
    r := Ok(());
  }

  /**
   * A strategy called without a ttl writes with the default hour: the value `getOrSet` fetches
   * on a miss, the value `setAndCache` persisted, and, for `setWithTags` with any tags, the
   * value and every tag list it writes.
   */
  lemma DefaultExpiry(entries: map<string, Entry>, key: string, fetch: Result<Json, string>, value: Json,
                      persist: Json -> Result<(), string>, tags: seq<string>)
    ensures Read(entries, key) == JNull && fetch.Ok? ==> GetOrSetOutcome(entries, key, fetch).entries[key].ttl == 60 * 60
    ensures persist(value).Ok? ==> SetAndCacheOutcome(entries, key, value, persist).1[key].ttl == 60 * 60
    ensures var out := SetWithTagsOutcome(entries, key, value, tags).entries;
      && key in out && out[key].ttl == 60 * 60
      && forall k :: k in out ==> (k in entries && out[k] == entries[k]) || out[k].ttl == 60 * 60
  {
    var start := Write(entries, key, value, DEFAULT_TTL);
    TagLoopWritesWith(start, key, tags, DEFAULT_TTL);
  }

  // ---------------------------------------------------------------- tags

  /** What `existingKeys.push(key)` throws when the stored tag list is truthy but not an array. */
  const PUSH_TYPE_ERROR: string := "TypeError: existingKeys.push is not a function"

  /** The list that `get(tagKey) || []` yields, when it is an array. */
  function ListOrEmpty(v: Json): Option<seq<Json>> {
    if !Truthy(v) then Some([]) else if v.JArr? then Some(v.items) else None
  }

  /** One iteration of the tag loop: append `key` to the tag's list and write the list back. */
  function AddTag(entries: map<string, Entry>, key: string, tag: string, ttl: nat): Result<map<string, Entry>, string> {
    match ListOrEmpty(Read(entries, TagKey(tag)))
    case None => Err(PUSH_TYPE_ERROR)
    case Some(existing) => Ok(Write(entries, TagKey(tag), JArr(existing + [JStr(key)]), ttl))
  }

  /** After the tag loop: the store, and the error that stopped it, if any (earlier writes stay). */
  datatype TagOutcome = TagOutcome(entries: map<string, Entry>, error: Option<string>)

  /** The tag loop over `tags`, in order, stopping at the first error. */
  function TagLoop(entries: map<string, Entry>, key: string, tags: seq<string>, ttl: nat): TagOutcome {
    if tags == [] then TagOutcome(entries, None)
    else
      var prev := TagLoop(entries, key, tags[..|tags| - 1], ttl);
      if prev.error.Some? then prev
      else
        match AddTag(prev.entries, key, tags[|tags| - 1], ttl)
        case Err(e) => TagOutcome(prev.entries, Some(e))
        case Ok(next) => TagOutcome(next, None)
  }

  /** `setWithTags(key, value, tags, ttl = CACHE_DURATIONS.DEFAULT)`: the value is written first, then the tag loop runs. */
  function SetWithTagsOutcome(entries: map<string, Entry>, key: string, value: Json, tags: seq<string>, ttl: nat := DEFAULT_TTL): TagOutcome {
    TagLoop(Write(entries, key, value, ttl), key, tags, ttl)
  }

  /** The tag loop keeps every key, and each entry it changes carries its ttl. */
  lemma {:induction false} TagLoopWritesWith(start: map<string, Entry>, key: string, tags: seq<string>, ttl: nat)
    ensures var out := TagLoop(start, key, tags, ttl).entries;
      && start.Keys <= out.Keys
      && forall k :: k in out ==> (k in start && out[k] == start[k]) || out[k].ttl == ttl
  {
    if tags != [] {
      TagLoopWritesWith(start, key, tags[..|tags| - 1], ttl);
    }
  }

  /** Once the loop has stopped on an error, the later tags change nothing. */
  lemma {:induction false} TagLoopStops(entries: map<string, Entry>, key: string, tags: seq<string>, ttl: nat, n: nat)
    requires n <= |tags| && TagLoop(entries, key, tags[..n], ttl).error.Some?
    ensures TagLoop(entries, key, tags, ttl) == TagLoop(entries, key, tags[..n], ttl)
  {
    if n < |tags| {
      var init := tags[..|tags| - 1];
      assert init[..n] == tags[..n];
      TagLoopStops(entries, key, init, ttl, n);
    } else {
      assert tags[..n] == tags;
    }
  }

  method SetWithTags(store: Store, key: string, value: Json, tags: seq<string>, ttl: nat := DEFAULT_TTL) returns (r: Result<(), string>)
    modifies store
    ensures var out := SetWithTagsOutcome(old(store.entries), key, value, tags, ttl);
      && store.entries == out.entries
      && (r.Err? <==> out.error.Some?)
      && (r.Err? ==> r.error == out.error.value)
  {
    ghost var start := Write(store.entries, key, value, ttl);
    var _ := Set(store, key, value, true, ttl);
    for i := 0 to |tags|
      invariant TagLoop(start, key, tags[..i], ttl) == TagOutcome(store.entries, None)
    {
      var tag := tags[i];
      assert tags[..i + 1][..i] == tags[..i];
      var stored := Get(store, TagKey(tag), true);
      var existingKeys: seq<Json>;
      if !Truthy(stored) {
        existingKeys := [];
      } else if stored.JArr? {
        existingKeys := stored.items;
      } else {
        TagLoopStops(start, key, tags, ttl, i + 1);
        return Err(PUSH_TYPE_ERROR);
      }
      existingKeys := existingKeys + [JStr(key)];
      var _ := Set(store, TagKey(tag), JArr(existingKeys), true, ttl);
    }
    assert tags[..|tags|] == tags;
    r := Ok(());
  }

  /** A stored tag list the loop can extend: missing, falsy, or an array. */
  predicate Extendable(v: Json) {
    ListOrEmpty(v).Some?
  }

  /** The elements of a stored list, none when it is not an array. */
  function Items(v: Json): (r: seq<Json>)
    ensures Extendable(v) ==> ListOrEmpty(v) == Some(r)
  {
    if v.JArr? then v.items else []
  }

  /** No tag of `tags` keeps its list under `k`. */
  predicate Untagged(k: string, tags: seq<string>) {
    forall i :: 0 <= i < |tags| ==> k != TagKey(tags[i])
  }

  /** The tag loop over distinct, extendable tags appends the key to each list and touches nothing else. */
  lemma {:induction false} TagLoopAppends(start: map<string, Entry>, key: string, tags: seq<string>, ttl: nat)
    requires forall i, j :: 0 <= i < j < |tags| ==> tags[i] != tags[j]
    requires forall i :: 0 <= i < |tags| ==> Extendable(Read(start, TagKey(tags[i])))
    ensures var out := TagLoop(start, key, tags, ttl);
      && out.error.None?
      && (forall i :: 0 <= i < |tags| ==> Read(out.entries, TagKey(tags[i])) == JArr(Items(Read(start, TagKey(tags[i]))) + [JStr(key)]))
      && (forall k :: Untagged(k, tags) ==> Read(out.entries, k) == Read(start, k))
  {
    if tags != [] {
      var n := |tags| - 1;
      var init, t := tags[..n], tags[n];
      TagLoopAppends(start, key, init, ttl);
      var prev := TagLoop(start, key, init, ttl);
      assert Untagged(TagKey(t), init) by {
        forall i | 0 <= i < n ensures TagKey(t) != TagKey(init[i]) {
          BuildersInjective(init[i], t);
        }
      }
      var next := Write(prev.entries, TagKey(t), JArr(Items(Read(start, TagKey(t))) + [JStr(key)]), ttl);
      assert AddTag(prev.entries, key, t, ttl) == Ok(next);
      assert TagLoop(start, key, tags, ttl) == TagOutcome(next, None);
      forall i | 0 <= i < |tags|
        ensures Read(next, TagKey(tags[i])) == JArr(Items(Read(start, TagKey(tags[i]))) + [JStr(key)])
      {
        if i < n { assert tags[i] == init[i]; }
      }
      forall k | Untagged(k, tags) ensures Read(next, k) == Read(start, k) {
        assert Untagged(k, init) by {
          forall i | 0 <= i < n ensures k != TagKey(init[i]) { assert init[i] == tags[i]; }
        }
        assert k != TagKey(tags[n]);
      }
    }
  }

  /**
   * With distinct tags whose lists can be extended and none of whose tag keys is the key
   * itself, tagging succeeds: the key holds the value, each tag's list becomes its previous
   * list (empty when there was none) with the key appended, and every other key is untouched.
   */
  lemma TagListsAppendKey(entries: map<string, Entry>, key: string, value: Json, tags: seq<string>, ttl: nat)
    requires forall i, j :: 0 <= i < j < |tags| ==> tags[i] != tags[j]
    requires forall i :: 0 <= i < |tags| ==> TagKey(tags[i]) != key && Extendable(Read(entries, TagKey(tags[i])))
    ensures var out := SetWithTagsOutcome(entries, key, value, tags, ttl);
      && out.error.None?
      && Read(out.entries, key) == value
      && (forall i :: 0 <= i < |tags| ==> Read(out.entries, TagKey(tags[i])) == JArr(Items(Read(entries, TagKey(tags[i]))) + [JStr(key)]))
      && (forall k :: k != key && Untagged(k, tags) ==> Read(out.entries, k) == Read(entries, k))
  {
    var start := Write(entries, key, value, ttl);
    assert forall i :: 0 <= i < |tags| ==> Read(start, TagKey(tags[i])) == Read(entries, TagKey(tags[i]));
    TagLoopAppends(start, key, tags, ttl);
    assert Untagged(key, tags);
  }

  /** A first tag whose list is truthy but not an array stops the loop with a TypeError, the value already written. */
  lemma TagListNotArray(entries: map<string, Entry>, key: string, value: Json, tags: seq<string>, ttl: nat)
    requires tags != [] && TagKey(tags[0]) != key && !Extendable(Read(entries, TagKey(tags[0])))
    ensures SetWithTagsOutcome(entries, key, value, tags, ttl) == TagOutcome(Write(entries, key, value, ttl), Some(PUSH_TYPE_ERROR))
  {
    assert tags[..1] == [tags[0]];
    assert [tags[0]][..0] == [];
    TagLoopStops(Write(entries, key, value, ttl), key, tags, ttl, 1);
  }

  // ---------------------------------------------------------------- invalidation by tag

  /** The strings among the elements of a list. */
  function StringItems(items: seq<Json>): (r: seq<string>)
    ensures forall k :: k in r <==> JStr(k) in items
  {
    if items == [] then []
    else
      var rest := StringItems(items[1..]);
      assert forall j :: j in items <==> j == items[0] || j in items[1..];
      match items[0]
      case JStr(k) => [k] + rest
      case _ => rest
  }

  /**
   * `keys.length > 0` for a parsed value: an array's element count or a string's character
   * count, an object's own `length` member compared with 0; other values have no `length`.
   */
  predicate LengthAboveZero(v: Json) {
    match v
    case JArr(items) => |items| > 0
    case JStr(s) => |s| > 0
    case JObj(fields) => "length" in fields && AboveZero(fields["length"])
    case _ => false
  }

  /**
   * `x > 0` for a `length` member `x`: a number compares as itself, a boolean as 0 or 1, and
   * null as 0; an object is NaN. A string or an array, which JavaScript compares through the
   * number its text spells, is taken as not above 0.
   */
  predicate AboveZero(x: Json) {
    match x
    case JNum(n) => n > 0
    case JBool(b) => b
    case _ => false
  }

  /**
   * The keys `...keys` spreads into the delete: an array's string elements, or a string's
   * single characters (a string spreads character by character).
   */
  function SpreadKeys(v: Json): seq<string> {
    match v
    case JArr(items) => StringItems(items)
    case JStr(s) => seq(|s|, i requires 0 <= i < |s| => [s[i]])
    case _ => []
  }

  /** Whether `keys && keys.length > 0` holds for the stored value. */
  predicate NonEmptyList(v: Json) {
    Truthy(v) && LengthAboveZero(v)
  }

  /** Spreading anything but an array or a string (both iterable) throws. */
  const SPREAD_TYPE_ERROR: string := "TypeError: keys is not iterable"

  /**
   * `invalidateByTag(tag)`: with a non-empty array or string, the tag key and every listed
   * key are deleted; an object with a positive `length` throws while the delete's argument is
   * built, before anything is deleted.
   */
  function InvalidateOutcome(entries: map<string, Entry>, tag: string): TagOutcome {
    var listed := Read(entries, TagKey(tag));
    if !NonEmptyList(listed) then TagOutcome(entries, None)
    else if !(listed.JArr? || listed.JStr?) then TagOutcome(entries, Some(SPREAD_TYPE_ERROR))
    else TagOutcome(entries - ({TagKey(tag)} + set k | k in SpreadKeys(listed)), None)
  }

  method InvalidateByTag(store: Store, tag: string) returns (error: Option<string>)
    modifies store
    ensures TagOutcome(store.entries, error) == InvalidateOutcome(old(store.entries), tag)
  {
    var tagKey := TagKey(tag);
    var keys := Get(store, tagKey, true);
    if Truthy(keys) && LengthAboveZero(keys) {
      if !(keys.JArr? || keys.JStr?) {
        return Some(SPREAD_TYPE_ERROR);
      }
      var doomed := [tagKey] + SpreadKeys(keys);
      var oks := seq(|doomed|, _ => true);
      DelAllRemovesExactly(store.entries, doomed, oks, tagKey);
      assert (set k | k in doomed) == {tagKey} + set k | k in SpreadKeys(keys);
      var _ := Del(store, doomed, oks);
    }
    error := None;
  }

  /**
   * Invalidation deletes the tag key and every string the stored value spreads to (an array's
   * string elements, a string's characters), and touches no other key. With the value absent,
   * empty, or without a positive `length`, nothing happens; an object with a positive `length`
   * fails with the spread's TypeError and deletes nothing.
   */
  lemma InvalidateDeletesListed(entries: map<string, Entry>, tag: string, k: string)
    ensures var listed := Read(entries, TagKey(tag));
      var out := InvalidateOutcome(entries, tag);
      && (out.error.Some? <==> listed.JObj? && LengthAboveZero(listed))
      && (out.error.Some? ==> out.error == Some(SPREAD_TYPE_ERROR) && out.entries == entries)
      && (!NonEmptyList(listed) ==> out == TagOutcome(entries, None))
      && (listed.JArr? && listed.items != [] ==>
            && TagKey(tag) !in out.entries
            && (JStr(k) in listed.items ==> k !in out.entries))
      && (listed.JStr? && listed.s != [] ==>
            && TagKey(tag) !in out.entries
            && (|k| == 1 && k[0] in listed.s ==> k !in out.entries))
      && (k != TagKey(tag) && k !in SpreadKeys(listed) ==> Read(out.entries, k) == Read(entries, k))
  {
    var listed := Read(entries, TagKey(tag));
    if listed.JStr? && listed.s != [] && |k| == 1 && k[0] in listed.s {
      var i :| 0 <= i < |listed.s| && listed.s[i] == k[0];
      assert SpreadKeys(listed)[i] == k;
    }
  }

  /**
   * Tagging then invalidating: after a successful `setWithTags`, invalidating any of its tags
   * removes the key and that tag's list, and leaves every key neither listed nor tagged as it was.
   */
  lemma TagThenInvalidate(entries: map<string, Entry>, key: string, value: Json, tags: seq<string>, ttl: nat, i: nat, k: string)
    requires forall a, b :: 0 <= a < b < |tags| ==> tags[a] != tags[b]
    requires forall a :: 0 <= a < |tags| ==> TagKey(tags[a]) != key && Extendable(Read(entries, TagKey(tags[a])))
    requires i < |tags|
    ensures var tagged := SetWithTagsOutcome(entries, key, value, tags, ttl).entries;
      var after := InvalidateOutcome(tagged, tags[i]).entries;
      var earlier := Items(Read(entries, TagKey(tags[i])));
      && key !in after && TagKey(tags[i]) !in after
      && (k != key && k != TagKey(tags[i]) && JStr(k) !in earlier && Untagged(k, tags) ==>
            Read(after, k) == Read(entries, k))
  {
    TagListsAppendKey(entries, key, value, tags, ttl);
    var tagged := SetWithTagsOutcome(entries, key, value, tags, ttl).entries;
    var earlier := Items(Read(entries, TagKey(tags[i])));
    var listed := Read(tagged, TagKey(tags[i]));
    assert listed == JArr(earlier + [JStr(key)]);
    assert JStr(key) in listed.items;
    InvalidateDeletesListed(tagged, tags[i], key);
    InvalidateDeletesListed(tagged, tags[i], k);
  }
}
