/**
 * The revert-data decoder script: a table from 4-byte selectors to the hub's custom error
 * signatures, its pretty-printed listing, and the classification of a revert hex string as
 * Error(string), Panic(uint256), a known custom error or an unknown selector.
 *
 * The keccak-256 hash of a signature (`ethers.id`) is a parameter `hash`, returning the
 * `0x`-prefixed hex digest. ABI decoding of the reason string or panic code is not modelled:
 * the outcome carries the hex data that would be decoded.
 */
module DecodeRevert {
  import opened Common
  import opened Strings
  import HubSpec

  /** The hub's custom errors, in declaration order, as the script lists them. */
  const KNOWN_ERRORS: seq<string> := [
    "ZeroAddress()",
    "FeeTooHigh()",
    "NotMerchant()",
    "InvalidAmount()",
    "PaymentAlreadyProcessed()",
    "PaymentNotProcessed()",
    "AlreadyRefunded()",
    "RefundNotRequested()",
    "NotPaymentConsumer()",
    "NotPaymentMerchant()",
    "RefundAmountTooHigh()"
  ]

  /** The selector of `Error(string)`. */
  const ERROR_STRING_SELECTOR: string := "0x08c379a0"

  /** The selector of `Panic(uint256)`. */
  const PANIC_SELECTOR: string := "0x4e487b71"

  /** `0x` followed by 8 hex digits: the number of characters a selector takes. */
  const SELECTOR_LENGTH: nat := 10

  /**
   * A JavaScript object used as a dictionary, as its entries in insertion order. Assigning an
   * existing key overwrites its value in place; a new key goes at the end.
   */
  type Table = seq<(string, string)>

  /** The keys of a table. */
  function Keys(t: Table): set<string> {
    if t == [] then {} else {t[0].0} + Keys(t[1..])
  }

  /** No key occurs twice, as in any JavaScript object. */
  predicate DistinctKeys(t: Table) {
    t == [] || (t[0].0 !in Keys(t[1..]) && DistinctKeys(t[1..]))
  }

  /** `obj[k]`, `None` (`undefined`) for a missing key. */
  function Lookup(t: Table, k: string): (r: Option<string>)
    ensures r.Some? <==> k in Keys(t)
  {
    if t == [] then None
    else if t[0].0 == k then Some(t[0].1)
    else Lookup(t[1..], k)
  }

  /** `obj[k] = v`: overwrites an existing key where it stands, or appends a new one. */
  function Put(t: Table, k: string, v: string): Table {
    if t == [] then [(k, v)]
    else if t[0].0 == k then [(k, v)] + t[1..]
    else [t[0]] + Put(t[1..], k, v)
  }

  /**
   * After `obj[k] = v`, `k` reads `v` and every other key reads as before; the keys gain `k`,
   * stay distinct, keep their order, and a new key goes last.
   */
  lemma {:induction false} PutLookup(t: Table, k: string, v: string)
    requires DistinctKeys(t)
    ensures Lookup(Put(t, k, v), k) == Some(v)
    ensures forall other :: other != k ==> Lookup(Put(t, k, v), other) == Lookup(t, other)
    ensures Keys(Put(t, k, v)) == Keys(t) + {k}
    ensures DistinctKeys(Put(t, k, v))
    ensures k !in Keys(t) ==> Put(t, k, v) == t + [(k, v)]
    ensures k in Keys(t) ==> |Put(t, k, v)| == |t|
  {
    if t != [] && t[0].0 != k {
      PutLookup(t[1..], k, v);
      var r := Put(t, k, v);
      assert r[1..] == Put(t[1..], k, v);
      assert k !in Keys(t) ==> t == [t[0]] + t[1..] && r == [t[0]] + (t[1..] + [(k, v)]);
    }
  }

  /** A table with distinct keys has one entry per key. */
  lemma {:induction false} DistinctKeysCount(t: Table)
    requires DistinctKeys(t)
    ensures |Keys(t)| == |t|
  {
    if t != [] {
      DistinctKeysCount(t[1..]);
    }
  }

  /** The selector of a signature: the first 10 characters (`0x` and 4 bytes) of its hash. */
  function Selector(hash: string -> string, signature: string): string {
    Take(hash(signature), SELECTOR_LENGTH)
  }

  /** The table the construction loop leaves after the given signatures, in order. */
  function SelectorTable(hash: string -> string, signatures: seq<string>): Table {
    if signatures == [] then []
    else
      var last := signatures[|signatures| - 1];
      Put(SelectorTable(hash, signatures[..|signatures| - 1]), Selector(hash, last), last)
  }

  /** The construction loop over the known errors: `selectors[id(e).slice(0, 10)] = e`. */
  method BuildSelectors(hash: string -> string) returns (t: Table)
    ensures t == SelectorTable(hash, KNOWN_ERRORS)
  {
    t := [];
    for i := 0 to |KNOWN_ERRORS|
      invariant t == SelectorTable(hash, KNOWN_ERRORS[..i])
    {
      var e := KNOWN_ERRORS[i];
      assert KNOWN_ERRORS[..i + 1][..i] == KNOWN_ERRORS[..i];
      t := Put(t, Selector(hash, e), e);
    }
    assert KNOWN_ERRORS[..|KNOWN_ERRORS|] == KNOWN_ERRORS;
  }

  /** The reference reading of a selector: the last of `signatures` that hashes to it. */
  function LastWithSelector(hash: string -> string, signatures: seq<string>, k: string): (r: Option<string>)
    ensures r.Some? <==> exists i :: 0 <= i < |signatures| && Selector(hash, signatures[i]) == k
    ensures r.Some? ==> exists i :: 0 <= i < |signatures| && signatures[i] == r.value && Selector(hash, r.value) == k
                                    && forall j :: i < j < |signatures| ==> Selector(hash, signatures[j]) != k
  {
    if signatures == [] then None
    else
      var n := |signatures| - 1;
      if Selector(hash, signatures[n]) == k then Some(signatures[n])
      else
        var r := LastWithSelector(hash, signatures[..n], k);
        assert forall i :: 0 <= i < n ==> signatures[..n][i] == signatures[i];
        r
  }

  /**
   * The table built from `signatures` has distinct keys, one per distinct selector, and each
   * selector reads the last signature that hashes to it.
   */
  lemma {:induction false} SelectorTableReads(hash: string -> string, signatures: seq<string>)
    ensures DistinctKeys(SelectorTable(hash, signatures))
    ensures Keys(SelectorTable(hash, signatures)) == set e | e in signatures :: Selector(hash, e)
    ensures forall k :: Lookup(SelectorTable(hash, signatures), k) == LastWithSelector(hash, signatures, k)
  {
    if signatures != [] {
      var n := |signatures| - 1;
      var init := signatures[..n];
      SelectorTableReads(hash, init);
      PutLookup(SelectorTable(hash, init), Selector(hash, signatures[n]), signatures[n]);
      assert signatures == init + [signatures[n]];
      assert (set e | e in signatures :: Selector(hash, e)) == (set e | e in init :: Selector(hash, e)) + {Selector(hash, signatures[n])};
    }
  }

  /** No two of `signatures` share a selector. */
  predicate DistinctSelectors(hash: string -> string, signatures: seq<string>) {
    forall i, j :: 0 <= i < j < |signatures| ==> Selector(hash, signatures[i]) != Selector(hash, signatures[j])
  }

  /** Without selector collisions the table has one entry per signature and maps each selector to its signature. */
  lemma SelectorTableExact(hash: string -> string, signatures: seq<string>)
    requires DistinctSelectors(hash, signatures)
    ensures |SelectorTable(hash, signatures)| == |signatures|
    ensures forall i :: 0 <= i < |signatures| ==> Lookup(SelectorTable(hash, signatures), Selector(hash, signatures[i])) == Some(signatures[i])
  {
    SelectorTableReads(hash, signatures);
    DistinctKeysCount(SelectorTable(hash, signatures));
    SelectorSetSize(hash, signatures);
    forall i | 0 <= i < |signatures|
      ensures Lookup(SelectorTable(hash, signatures), Selector(hash, signatures[i])) == Some(signatures[i])
    {
      var r := LastWithSelector(hash, signatures, Selector(hash, signatures[i]));
      var i' :| 0 <= i' < |signatures| && signatures[i'] == r.value && Selector(hash, r.value) == Selector(hash, signatures[i])
                && forall j :: i' < j < |signatures| ==> Selector(hash, signatures[j]) != Selector(hash, signatures[i]);
      assert i' == i;
    }
  }

  lemma {:induction false} SelectorSetSize(hash: string -> string, signatures: seq<string>)
    requires DistinctSelectors(hash, signatures)
    ensures |set e | e in signatures :: Selector(hash, e)| == |signatures|
  {
    if signatures != [] {
      var n := |signatures| - 1;
      var init := signatures[..n];
      assert DistinctSelectors(hash, init);
      SelectorSetSize(hash, init);
      assert signatures == init + [signatures[n]];
      var before := set e | e in init :: Selector(hash, e);
      assert (set e | e in signatures :: Selector(hash, e)) == before + {Selector(hash, signatures[n])};
    }
  }

  // ---------------------------------------------------------------- listing

  /** One line of the listing: `  <selector> -> <signature>`. */
  function Line(entry: (string, string)): string {
    "  " + entry.0 + " -> " + entry.1
  }

  /** The listing's lines, one per entry in table order. */
  function Lines(t: Table): (r: seq<string>)
    ensures |r| == |t|
    ensures forall i :: 0 <= i < |t| ==> r[i] == Line(t[i])
  {
    if t == [] then [] else [Line(t[0])] + Lines(t[1..])
  }

  /** A line holds a newline only where its selector or signature does. */
  lemma LineWithoutNewline(entry: (string, string))
    requires '\n' !in entry.0 && '\n' !in entry.1
    ensures '\n' !in Line(entry)
  {
    var indent, arrow := "  ", " -> ";
    assert '\n' !in indent && '\n' !in arrow;
    assert Line(entry) == indent + entry.0 + arrow + entry.1;
  }

  /** `prettyList(selMap)`: the lines joined with newlines. */
  function PrettyList(t: Table): string {
    Join(Lines(t), '\n')
  }

  /**
   * The listing of a non-empty table splits back, at its newlines, into exactly one line per
   * entry in table order, when no selector or signature holds a newline; an empty table lists
   * as the empty string.
   */
  lemma PrettyListLines(t: Table)
    requires forall i :: 0 <= i < |t| ==> '\n' !in t[i].0 && '\n' !in t[i].1
    ensures t == [] ==> PrettyList(t) == ""
    ensures t != [] ==> Split(PrettyList(t), '\n') == Lines(t)
  {
    if t != [] {
      forall i | 0 <= i < |t| ensures '\n' !in Lines(t)[i] {
        LineWithoutNewline(t[i]);
      }
      SplitJoin(Lines(t), '\n');
    }
  }

  // ---------------------------------------------------------------- classification

  /** What the script reports; only the usage path exits with status 1. */
  datatype Outcome =
    | Usage(known: string)
    | ErrorString(data: string)
    | Panic(data: string)
    | Custom(selector: string, signature: string)
    | Unknown(selector: string, full: string, known: string)

  function ExitCode(o: Outcome): nat {
    if o.Usage? then 1 else 0
  }

  /** The input with `0x` in front unless it already starts with it. */
  function WithHexPrefix(hex: string): (r: string)
    ensures HasPrefix(r, "0x")
  {
    if HasPrefix(hex, "0x") then hex else "0x" + hex
  }

  /** Prefixing is idempotent and changes exactly the inputs that lack the prefix, by prepending it. */
  lemma WithHexPrefixIdempotent(hex: string)
    ensures WithHexPrefix(WithHexPrefix(hex)) == WithHexPrefix(hex)
    ensures WithHexPrefix(hex) == hex <==> HasPrefix(hex, "0x")
    ensures !HasPrefix(hex, "0x") ==> Drop(WithHexPrefix(hex), 2) == hex
  {
    if !HasPrefix(hex, "0x") {
      assert Take("0x" + hex, 2) == "0x";
    }
  }

  /**
   * `decode(revertHex)` against the selector table. Missing or empty input prints the usage
   * and the listing and exits 1. Otherwise the input gets its `0x` prefix, and the first
   * matching check wins: the Error(string) selector, then the Panic(uint256) selector (both
   * hand on everything after the 10-character selector, re-prefixed with `0x`), then a table
   * hit on the first 10 characters, and otherwise an unknown selector with the listing.
   */
  method Decode(revertHex: Option<string>, selectors: Table) returns (o: Outcome)
    ensures o.Usage? <==> revertHex.None? || revertHex.value == ""
    ensures o.Usage? ==> o.known == PrettyList(selectors)
    ensures !o.Usage? ==>
      var hex := WithHexPrefix(revertHex.value);
      var sel := Take(hex, SELECTOR_LENGTH);
      && (o.ErrorString? <==> HasPrefix(hex, ERROR_STRING_SELECTOR))
      && (o.Panic? <==> !HasPrefix(hex, ERROR_STRING_SELECTOR) && HasPrefix(hex, PANIC_SELECTOR))
      && (o.ErrorString? || o.Panic? ==> o.data == "0x" + Drop(hex, SELECTOR_LENGTH))
      && (o.Custom? <==> !HasPrefix(hex, ERROR_STRING_SELECTOR) && !HasPrefix(hex, PANIC_SELECTOR)
                         && Lookup(selectors, sel).Some? && Lookup(selectors, sel).value != "")
      && (o.Custom? ==> o.selector == sel && Lookup(selectors, sel) == Some(o.signature))
      && (o.Unknown? ==> o == Unknown(sel, hex, PrettyList(selectors)))
  {
    if revertHex.None? || revertHex.value == "" {
      return Usage(PrettyList(selectors));
    }
    var hex := revertHex.value;
    if !HasPrefix(hex, "0x") {
      hex := "0x" + hex;
    }
    if HasPrefix(hex, ERROR_STRING_SELECTOR) {
      return ErrorString("0x" + Drop(hex, SELECTOR_LENGTH));
    }
    if HasPrefix(hex, PANIC_SELECTOR) {
      return Panic("0x" + Drop(hex, SELECTOR_LENGTH));
    }
    var sel := Take(hex, SELECTOR_LENGTH);
    var found := Lookup(selectors, sel);
    if found.Some? && found.value != "" {
      return Custom(sel, found.value);
    }
    return Unknown(sel, hex, PrettyList(selectors));
  }

  // ---------------------------------------------------------------- the hub's errors

  /** The signature of a custom error the hub declares. */
  function Signature(e: HubSpec.HubError): Option<string> {
    match e
    case ZeroAddress => Some("ZeroAddress()")
    case FeeTooHigh => Some("FeeTooHigh()")
    case NotMerchant => Some("NotMerchant()")
    case InvalidAmount => Some("InvalidAmount()")
    case PaymentAlreadyProcessed => Some("PaymentAlreadyProcessed()")
    case PaymentNotProcessed => Some("PaymentNotProcessed()")
    case AlreadyRefunded => Some("AlreadyRefunded()")
    case RefundNotRequested => Some("RefundNotRequested()")
    case NotPaymentConsumer => Some("NotPaymentConsumer()")
    case NotPaymentMerchant => Some("NotPaymentMerchant()")
    case RefundAmountTooHigh => Some("RefundAmountTooHigh()")
    case _ => None
  }

  /** The custom error a listed signature names: the inverse of `Signature`. */
  function ErrorNamed(signature: string): Option<HubSpec.HubError> {
    if signature == "ZeroAddress()" then Some(HubSpec.ZeroAddress)
    else if signature == "FeeTooHigh()" then Some(HubSpec.FeeTooHigh)
    else if signature == "NotMerchant()" then Some(HubSpec.NotMerchant)
    else if signature == "InvalidAmount()" then Some(HubSpec.InvalidAmount)
    else if signature == "PaymentAlreadyProcessed()" then Some(HubSpec.PaymentAlreadyProcessed)
    else if signature == "PaymentNotProcessed()" then Some(HubSpec.PaymentNotProcessed)
    else if signature == "AlreadyRefunded()" then Some(HubSpec.AlreadyRefunded)
    else if signature == "RefundNotRequested()" then Some(HubSpec.RefundNotRequested)
    else if signature == "NotPaymentConsumer()" then Some(HubSpec.NotPaymentConsumer)
    else if signature == "NotPaymentMerchant()" then Some(HubSpec.NotPaymentMerchant)
    else if signature == "RefundAmountTooHigh()" then Some(HubSpec.RefundAmountTooHigh)
    else None
  }

  /**
   * The script's table lists exactly the hub's custom errors: an error has a signature exactly
   * when it is one of the hub's own custom errors, that signature is listed and names the error
   * back, and every listed signature names a custom error whose signature it is.
   */
  lemma KnownErrorsAreTheCustomErrors()
    ensures forall e :: HubSpec.IsCustomError(e) <==> Signature(e).Some?
    ensures forall e :: Signature(e).Some? ==> Signature(e).value in KNOWN_ERRORS && ErrorNamed(Signature(e).value) == Some(e)
    ensures forall s :: s in KNOWN_ERRORS ==> ErrorNamed(s).Some? && Signature(ErrorNamed(s).value) == Some(s)
    ensures forall s :: s !in KNOWN_ERRORS ==> ErrorNamed(s).None?
  {
    SignaturesNameTheirErrors();
    ListedSignaturesNameErrors();
    UnlistedSignaturesNameNothing();
  }

  lemma SignaturesNameTheirErrors()
    ensures forall e :: Signature(e).Some? ==> Signature(e).value in KNOWN_ERRORS && ErrorNamed(Signature(e).value) == Some(e)
  {
    forall e | Signature(e).Some?
      ensures Signature(e).value in KNOWN_ERRORS && ErrorNamed(Signature(e).value) == Some(e)
    {
    }
  }

  lemma ListedSignaturesNameErrors()
    ensures forall s :: s in KNOWN_ERRORS ==> ErrorNamed(s).Some? && Signature(ErrorNamed(s).value) == Some(s)
  {
    forall i | 0 <= i < |KNOWN_ERRORS|
      ensures ErrorNamed(KNOWN_ERRORS[i]).Some? && Signature(ErrorNamed(KNOWN_ERRORS[i]).value) == Some(KNOWN_ERRORS[i])
    {
    }
  }

  lemma UnlistedSignaturesNameNothing()
    ensures forall s :: s !in KNOWN_ERRORS ==> ErrorNamed(s).None?
  {
    forall s | ErrorNamed(s).Some? ensures s in KNOWN_ERRORS {
    }
  }

  /**
   * What the real digest guarantees and the model needs: every listed signature hashes to
   * `0x` and at least 8 hex digits, no two share a selector, and none collides with the
   * Error(string) or Panic(uint256) selector.
   */
  predicate UsableDigest(hash: string -> string) {
    && (forall i :: 0 <= i < |KNOWN_ERRORS| ==> |hash(KNOWN_ERRORS[i])| >= SELECTOR_LENGTH && HasPrefix(hash(KNOWN_ERRORS[i]), "0x"))
    && (forall i :: 0 <= i < |KNOWN_ERRORS| ==>
          Selector(hash, KNOWN_ERRORS[i]) != ERROR_STRING_SELECTOR && Selector(hash, KNOWN_ERRORS[i]) != PANIC_SELECTOR)
    && DistinctSelectors(hash, KNOWN_ERRORS)
  }

  /** Data that starts with a selector other than the two standard ones is classified by that selector. */
  lemma SelectorLeads(sel: string, rest: string)
    requires |sel| == SELECTOR_LENGTH && HasPrefix(sel, "0x")
    requires sel != ERROR_STRING_SELECTOR && sel != PANIC_SELECTOR
    ensures WithHexPrefix(sel + rest) == sel + rest
    ensures Take(sel + rest, SELECTOR_LENGTH) == sel
    ensures !HasPrefix(sel + rest, ERROR_STRING_SELECTOR) && !HasPrefix(sel + rest, PANIC_SELECTOR)
  {
    var data := sel + rest;
    assert data[..SELECTOR_LENGTH] == sel;
    assert data[..2] == sel[..2];
  }

  /**
   * Revert data that starts with the selector of one of the hub's custom errors, followed by
   * anything, decodes as that error.
   */
  method DecodeHubError(hash: string -> string, e: HubSpec.HubError, rest: string) returns (o: Outcome)
    requires HubSpec.IsCustomError(e) && UsableDigest(hash)
    ensures Signature(e).Some? && o == Custom(Selector(hash, Signature(e).value), Signature(e).value)
  {
    KnownErrorsAreTheCustomErrors();
    var signature := Signature(e).value;
    var i :| 0 <= i < |KNOWN_ERRORS| && KNOWN_ERRORS[i] == signature;
    var selectors := BuildSelectors(hash);
    SelectorTableExact(hash, KNOWN_ERRORS);
    var sel := Selector(hash, signature);
    assert Lookup(selectors, sel) == Some(signature);
    SelectorLeads(sel, rest);
    o := Decode(Some(sel + rest), selectors);
  }
}
