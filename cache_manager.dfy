/**
 * The cache manager over a key-value store standing in for Redis. Values are JSON documents,
 * stored with their expiry time; a read returns the document written (the JSON text round
 * trip is taken as exact) and expiry is not modelled. Whether each store call succeeds is a
 * parameter: a failure is reported as `null` or `false`, never thrown.
 */
module CacheManager {
  import opened CacheKeys

  /** A JSON document (numbers are integers in this model). */
  datatype Json =
    | JNull
    | JBool(b: bool)
    | JNum(n: int)
    | JStr(s: string)
    | JArr(items: seq<Json>)
    | JObj(fields: map<string, Json>)

  /** JavaScript truthiness of a parsed JSON value. */
  predicate Truthy(v: Json) {
    match v
    case JNull => false
    case JBool(b) => b
    case JNum(n) => n != 0
    case JStr(s) => s != ""
    case _ => true
  }

  /** A stored value and the expiry it was written with, in seconds. */
  datatype Entry = Entry(value: Json, ttl: nat)

  /** The store: Redis as one map from keys to entries. */
  class Store {
    var entries: map<string, Entry>

    constructor()
      ensures entries == map[]
    {
      entries := map[];
    }
  }

  /** What a successful read returns: the stored document, or `null` for an absent key. */
  function Read(entries: map<string, Entry>, key: string): Json {
    if key in entries then entries[key].value else JNull
  }

  /** The store after a successful write. */
  function Write(entries: map<string, Entry>, key: string, value: Json, ttl: nat): map<string, Entry> {
    entries[key := Entry(value, ttl)]
  }

  /** The keys a batch delete removes: those whose own delete succeeded. */
  function Deleted(keys: seq<string>, oks: seq<bool>): set<string>
    requires |oks| == |keys|
  {
    set i | 0 <= i < |keys| && oks[i] :: keys[i]
  }

  /** `CacheManager.get(key)`: the stored document, or `null` when the key is absent or the read fails. */
  method Get(store: Store, key: string, ok: bool) returns (v: Json)
    ensures v == if ok then Read(store.entries, key) else JNull
  {
    if !ok {
      return JNull;
    }
    if key in store.entries {
      v := store.entries[key].value;
    } else {
      v := JNull;
    }
  }

  /** `CacheManager.set(key, value, ttl = CACHE_DURATIONS.DEFAULT)`: writes and reports `true`, or reports `false` and writes nothing. */
  method Set(store: Store, key: string, value: Json, ok: bool, ttl: nat := DEFAULT_TTL) returns (r: bool)
    modifies store
    ensures r == ok
    ensures store.entries == if ok then Write(old(store.entries), key, value, ttl) else old(store.entries)
  {
    if ok {
      store.entries := store.entries[key := Entry(value, ttl)];
    }
    r := ok;
  }

  /** `CacheManager.del(key)` for one key. */
  method Delete(store: Store, key: string, ok: bool) returns (r: bool)
    modifies store
    ensures r == ok
    ensures store.entries == if ok then old(store.entries) - {key} else old(store.entries)
  {
    if ok {
      store.entries := store.entries - {key};
    }
    r := ok;
  }

  /**
   * `CacheManager.del(keys)` for an array: one delete per key, all issued; the call reports
   * `true` only when every delete succeeded, and every delete that succeeded took effect.
   */
  method Del(store: Store, keys: seq<string>, oks: seq<bool>) returns (r: bool)
    requires |oks| == |keys|
    modifies store
    ensures r <==> forall i :: 0 <= i < |oks| ==> oks[i]
    ensures store.entries == old(store.entries) - Deleted(keys, oks)
  {
    r := true;
    for i := 0 to |keys|
      invariant r <==> forall j :: 0 <= j < i ==> oks[j]
      invariant store.entries == old(store.entries) - Deleted(keys[..i], oks[..i])
    {
      assert Deleted(keys[..i + 1], oks[..i + 1]) == Deleted(keys[..i], oks[..i]) + (if oks[i] then {keys[i]} else {}) by {
        assert forall j :: 0 <= j < i ==> keys[..i + 1][j] == keys[..i][j] && oks[..i + 1][j] == oks[..i][j];
      }
      if oks[i] {
        store.entries := store.entries - {keys[i]};
      } else {
        r := false;
      }
    }
    assert keys[..|keys|] == keys && oks[..|oks|] == oks;
  }

  /** `cacheUser(userId, data)`: the user's document for half an hour. */
  method CacheUser(store: Store, userId: string, userData: Json, ok: bool) returns (r: bool)
    modifies store
    ensures r == ok
    ensures store.entries == if ok then Write(old(store.entries), User(userId), userData, USER_DATA_TTL) else old(store.entries)
  {
    r := Set(store, User(userId), userData, ok, USER_DATA_TTL);
  }

  /** `getCachedUser(userId)` */
  method GetCachedUser(store: Store, userId: string, ok: bool) returns (v: Json)
    ensures v == if ok then Read(store.entries, User(userId)) else JNull
  {
    v := Get(store, User(userId), ok);
  }

  /** `cacheMerchantData(merchantId, data)`: the merchant's document for an hour. */
  method CacheMerchantData(store: Store, merchantId: string, data: Json, ok: bool) returns (r: bool)
    modifies store
    ensures r == ok
    ensures store.entries == if ok then Write(old(store.entries), Merchant(merchantId), data, MERCHANT_DATA_TTL) else old(store.entries)
  {
    r := Set(store, Merchant(merchantId), data, ok, MERCHANT_DATA_TTL);
  }

  /** The three keys of a user's cached data. */
  function UserKeys(userId: string): seq<string> {
    [User(userId), UserRewards(userId), UserTransactions(userId)]
  }

  /** `invalidateUserCache(userId)`: deletes the user's document, rewards and transactions. */
  method InvalidateUserCache(store: Store, userId: string, oks: seq<bool>) returns (r: bool)
    requires |oks| == 3
    modifies store
    ensures r <==> oks[0] && oks[1] && oks[2]
    ensures store.entries == old(store.entries) - Deleted(UserKeys(userId), oks)
  {
    r := Del(store, UserKeys(userId), oks);
  }

  // ---------------------------------------------------------------- properties of the store operations

  /** A write is read back, and leaves every other key as it was. */
  lemma ReadAfterWrite(entries: map<string, Entry>, key: string, value: Json, ttl: nat, other: string)
    ensures Read(Write(entries, key, value, ttl), key) == value
    ensures other != key ==> Read(Write(entries, key, value, ttl), other) == Read(entries, other)
    ensures Write(entries, key, value, ttl).Keys == entries.Keys + {key}
  {}

  /** A key never written reads `null`, as does any key of the empty store. */
  lemma ReadAbsent(entries: map<string, Entry>, key: string)
    ensures key !in entries ==> Read(entries, key) == JNull
    ensures Read(map[], key) == JNull
  {}

  /**
   * A batch delete in which every call succeeds removes exactly the listed keys: each of them
   * then reads `null`, and every other key keeps its entry.
   */
  lemma DelAllRemovesExactly(entries: map<string, Entry>, keys: seq<string>, oks: seq<bool>, other: string)
    requires |oks| == |keys| && forall i :: 0 <= i < |oks| ==> oks[i]
    ensures Deleted(keys, oks) == set k | k in keys
    ensures forall i :: 0 <= i < |keys| ==> Read(entries - Deleted(keys, oks), keys[i]) == JNull
    ensures other !in keys ==> (other in entries - Deleted(keys, oks) <==> other in entries)
    ensures other !in keys && other in entries ==> (entries - Deleted(keys, oks))[other] == entries[other]
  {
    assert forall k :: k in keys ==> k in Deleted(keys, oks) by {
      forall k | k in keys ensures k in Deleted(keys, oks) {
        var i :| 0 <= i < |keys| && keys[i] == k;
        assert oks[i];
      }
    }
  }

  /**
   * `cacheUser` and `getCachedUser` use the same key: the user's document is read back, and
   * caching one user leaves every other user's document as it was.
   */
  lemma CachedUserReadsBack(entries: map<string, Entry>, userId: string, data: Json, otherUser: string)
    ensures Read(Write(entries, User(userId), data, USER_DATA_TTL), User(userId)) == data
    ensures otherUser != userId ==> Read(Write(entries, User(userId), data, USER_DATA_TTL), User(otherUser)) == Read(entries, User(otherUser))
  {
    BuildersInjective(userId, otherUser);
  }

  /**
   * Invalidating a user removes exactly the user's three keys when every delete succeeds; the
   * merchant documents and the other users' main documents are untouched unless their id
   * collides with a derived key.
   */
  lemma InvalidateUserRemovesExactly(entries: map<string, Entry>, userId: string, key: string)
    ensures Deleted(UserKeys(userId), [true, true, true]) == {User(userId), UserRewards(userId), UserTransactions(userId)}
    ensures key !in {User(userId), UserRewards(userId), UserTransactions(userId)} ==>
      Read(entries - Deleted(UserKeys(userId), [true, true, true]), key) == Read(entries, key)
    ensures forall m :: Read(entries - Deleted(UserKeys(userId), [true, true, true]), Merchant(m)) == Read(entries, Merchant(m))
  {
    var gone := Deleted(UserKeys(userId), [true, true, true]);
    assert gone == {User(userId), UserRewards(userId), UserTransactions(userId)} by {
      assert UserKeys(userId)[0] in gone && UserKeys(userId)[1] in gone && UserKeys(userId)[2] in gone;
    }
    forall m ensures Read(entries - gone, Merchant(m)) == Read(entries, Merchant(m)) {
      FamiliesDisjoint(userId, m);
      UserNamespace(userId);
      MerchantNamespace(m);
    }
  }
}
