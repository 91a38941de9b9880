/**
 * The cache's key builders and expiry times. Every key is a namespace, a colon, and the
 * builder's arguments (with a fixed suffix for the derived keys).
 */
module CacheKeys {
  import opened Strings

  function User(id: string): string { "user:" + id }
  function UserRewards(id: string): string { "user:" + id + ":rewards" }
  function UserTransactions(id: string): string { "user:" + id + ":transactions" }

  function Merchant(id: string): string { "merchant:" + id }
  function MerchantSales(id: string): string { "merchant:" + id + ":sales" }
  function MerchantQr(id: string): string { "merchant:" + id + ":qr" }

  function Transaction(id: string): string { "transaction:" + id }
  function TransactionStatus(id: string): string { "transaction:" + id + ":status" }

  function DailyStats(date: string): string { "stats:daily:" + date }
  function MerchantAnalytics(id: string, period: string): string { "analytics:merchant:" + id + ":" + period }

  function Session(sessionId: string): string { "session:" + sessionId }
  function RateLimit(ip: string): string { "ratelimit:" + ip }

  /** The key under which the tag strategy keeps the keys carrying `tag`. */
  function TagKey(tag: string): string { "tag:" + tag }

  /** Expiry times, in seconds. */
  const DEFAULT_TTL: nat := 3600
  const USER_DATA_TTL: nat := 1800
  const MERCHANT_DATA_TTL: nat := 3600
  const TRANSACTION_DATA_TTL: nat := 300
  const ANALYTICS_TTL: nat := 7200
  const RATE_LIMIT_TTL: nat := 60
  const SESSION_TTL: nat := 86400

  /** The durations are the documented hour, half hour, hour, five minutes, two hours, minute and day. */
  lemma Durations()
    ensures DEFAULT_TTL == 60 * 60 && USER_DATA_TTL == 30 * 60 && MERCHANT_DATA_TTL == 60 * 60
    ensures TRANSACTION_DATA_TTL == 5 * 60 && ANALYTICS_TTL == 2 * 60 * 60 && RATE_LIMIT_TTL == 60
    ensures SESSION_TTL == 24 * 60 * 60
    ensures USER_DATA_TTL < DEFAULT_TTL == MERCHANT_DATA_TTL < ANALYTICS_TTL < SESSION_TTL
  {}

  /** The namespace of a key: the text before its first colon. */
  function Namespace(key: string): string {
    if key == [] || key[0] == ':' then [] else [key[0]] + Namespace(key[1..])
  }

  /** A namespace without a colon, followed by a colon and anything, reads back as that namespace. */
  lemma {:induction false} NamespaceOf(ns: string, rest: string)
    requires ':' !in ns
    ensures Namespace(ns + ":" + rest) == ns
  {
    if ns != [] {
      assert (ns + ":" + rest)[1..] == ns[1..] + ":" + rest;
      NamespaceOf(ns[1..], rest);
    }
  }

  /**
   * Every builder's key reads back its own namespace, so keys of different families never
   * collide (a user and a merchant key, say, or a transaction key and a tag list).
   */
  lemma UserNamespace(id: string)
    ensures Namespace(User(id)) == "user" && Namespace(UserRewards(id)) == "user" && Namespace(UserTransactions(id)) == "user"
  {
    NamespaceOf("user", id);
    assert User(id) == "user" + ":" + id;
    NamespaceOf("user", id + ":rewards");
    assert UserRewards(id) == "user" + ":" + (id + ":rewards");
    NamespaceOf("user", id + ":transactions");
    assert UserTransactions(id) == "user" + ":" + (id + ":transactions");
  }

  lemma MerchantNamespace(id: string)
    ensures Namespace(Merchant(id)) == "merchant" && Namespace(MerchantSales(id)) == "merchant" && Namespace(MerchantQr(id)) == "merchant"
  {
    NamespaceOf("merchant", id);
    assert Merchant(id) == "merchant" + ":" + id;
    NamespaceOf("merchant", id + ":sales");
    assert MerchantSales(id) == "merchant" + ":" + (id + ":sales");
    NamespaceOf("merchant", id + ":qr");
    assert MerchantQr(id) == "merchant" + ":" + (id + ":qr");
  }

  lemma TransactionNamespace(id: string)
    ensures Namespace(Transaction(id)) == "transaction" && Namespace(TransactionStatus(id)) == "transaction"
  {
    NamespaceOf("transaction", id);
    assert Transaction(id) == "transaction" + ":" + id;
    NamespaceOf("transaction", id + ":status");
    assert TransactionStatus(id) == "transaction" + ":" + (id + ":status");
  }

  lemma AnalyticsNamespace(id: string, p: string)
    ensures Namespace(DailyStats(id)) == "stats" && Namespace(MerchantAnalytics(id, p)) == "analytics"
  {
    var daily := "daily:" + id;
    assert "stats:daily:" == "stats" + ":" + "daily:";
    assert DailyStats(id) == "stats" + ":" + daily;
    NamespaceOf("stats", daily);
    var rest := "merchant:" + id + ":" + p;
    assert "analytics:merchant:" == "analytics" + ":" + "merchant:";
    assert MerchantAnalytics(id, p) == "analytics" + ":" + rest;
    NamespaceOf("analytics", rest);
  }

  lemma OtherNamespaces(id: string)
    ensures Namespace(Session(id)) == "session" && Namespace(RateLimit(id)) == "ratelimit"
    ensures Namespace(TagKey(id)) == "tag"
  {
    NamespaceOf("session", id);
    assert Session(id) == "session" + ":" + id;
    NamespaceOf("ratelimit", id);
    assert RateLimit(id) == "ratelimit" + ":" + id;
    NamespaceOf("tag", id);
    assert TagKey(id) == "tag" + ":" + id;
  }

  /** Keys of the user, merchant and tag families never coincide, whatever the ids. */
  lemma FamiliesDisjoint(a: string, b: string)
    ensures User(a) != Merchant(b) && User(a) != TagKey(b) && Merchant(a) != TagKey(b)
    ensures UserRewards(a) != MerchantSales(b) && Transaction(a) != TagKey(b) && Session(a) != DailyStats(b)
  {
    UserNamespace(a);
    MerchantNamespace(a);
    MerchantNamespace(b);
    TransactionNamespace(a);
    OtherNamespaces(a);
    OtherNamespaces(b);
    AnalyticsNamespace(b, "");
  }

  /** Each one-argument builder is injective: the argument is what follows the fixed prefix, before the fixed suffix. */
  lemma BuildersInjective(a: string, b: string)
    ensures User(a) == User(b) ==> a == b
    ensures UserRewards(a) == UserRewards(b) ==> a == b
    ensures UserTransactions(a) == UserTransactions(b) ==> a == b
    ensures Merchant(a) == Merchant(b) ==> a == b
    ensures MerchantSales(a) == MerchantSales(b) ==> a == b
    ensures MerchantQr(a) == MerchantQr(b) ==> a == b
    ensures Transaction(a) == Transaction(b) ==> a == b
    ensures TransactionStatus(a) == TransactionStatus(b) ==> a == b
    ensures DailyStats(a) == DailyStats(b) ==> a == b
    ensures Session(a) == Session(b) ==> a == b
    ensures RateLimit(a) == RateLimit(b) ==> a == b
    ensures TagKey(a) == TagKey(b) ==> a == b
  {
    Infix("user:", a, b, "");
    Infix("user:", a, b, ":rewards");
    Infix("user:", a, b, ":transactions");
    Infix("merchant:", a, b, "");
    Infix("merchant:", a, b, ":sales");
    Infix("merchant:", a, b, ":qr");
    Infix("transaction:", a, b, "");
    Infix("transaction:", a, b, ":status");
    Infix("stats:daily:", a, b, "");
    Infix("session:", a, b, "");
    Infix("ratelimit:", a, b, "");
    Infix("tag:", a, b, "");
  }

  /** Between a fixed prefix and a fixed suffix, equal strings have equal middles. */
  lemma Infix(prefix: string, a: string, b: string, suffix: string)
    ensures prefix + a + suffix == prefix + b + suffix ==> a == b
  {
    if prefix + a + suffix == prefix + b + suffix {
      assert |a| == |b|;
      assert forall i :: 0 <= i < |a| ==> a[i] == (prefix + a + suffix)[|prefix| + i] == b[i];
    }
  }

  /** The derived keys extend their entity's key with a fixed suffix. */
  lemma DerivedKeysExtend(id: string)
    ensures UserRewards(id) == User(id) + ":rewards" && UserTransactions(id) == User(id) + ":transactions"
    ensures MerchantSales(id) == Merchant(id) + ":sales" && MerchantQr(id) == Merchant(id) + ":qr"
    ensures TransactionStatus(id) == Transaction(id) + ":status"
    ensures HasPrefix(UserRewards(id), User(id)) && HasPrefix(MerchantQr(id), Merchant(id))
  {
    assert UserRewards(id)[..|User(id)|] == User(id);
    assert MerchantQr(id)[..|Merchant(id)|] == Merchant(id);
  }

  /**
   * Within a family the builders are not separated: an id holding a colon makes one entity's
   * key another's derived key, and the analytics key cannot tell where the id ends.
   */
  lemma KeysCollideAcrossIds()
    ensures User("a:rewards") == UserRewards("a")
    ensures Merchant("m:qr") == MerchantQr("m")
    ensures MerchantAnalytics("a:b", "c") == MerchantAnalytics("a", "b:c")
  {}
}
