/**
 * The faucet script's command line: the `--key value` argument parser and the defaults and
 * required-argument checks that precede the transaction. Sending the transaction is not part
 * of this model; the process environment is a parameter.
 */
module RunFaucet {
  import opened Common
  import opened Strings

  /** Parsed arguments: a key maps to the token after it, or to `None` (`undefined`) for a trailing flag. */
  type Args = map<string, Option<string>>

  /**
   * Assigning to the key `__proto__` of a plain object sets its prototype, and assigning a
   * string or `undefined` there does nothing, so that key never becomes an own property.
   */
  const PROTO_KEY: string := "__proto__"

  /** `process.argv[0]` and `[1]` are the interpreter and the script; parsing starts after them. */
  const FIRST_ARG: nat := 2

  const DEFAULT_AMOUNT: string := "1000000"

  predicate IsFlag(token: string) {
    HasPrefix(token, "--")
  }

  /** The key a flag names: the token without its leading `--`. */
  function KeyOf(token: string): string {
    Drop(token, 2)
  }

  /** `argv[j + 1]`, `None` past the end. */
  function ValueAfter(argv: seq<string>, j: nat): Option<string> {
    if j + 1 < |argv| then Some(argv[j + 1]) else None
  }

  /** `args[key] = val` */
  function Assign(args: Args, key: string, val: Option<string>): Args {
    if key == PROTO_KEY then args else args[key := val]
  }

  /** Where the scan goes after position `i`: past the value of a flag, otherwise to the next token. */
  function Next(argv: seq<string>, i: nat): nat
    requires i < |argv|
  {
    if IsFlag(argv[i]) then i + 2 else i + 1
  }

  /** The scan from position `i` with the arguments parsed so far. */
  function Scan(argv: seq<string>, i: nat, args: Args): Args
    decreases |argv| - i
  {
    if i >= |argv| then args
    else if IsFlag(argv[i]) then Scan(argv, i + 2, Assign(args, KeyOf(argv[i]), ValueAfter(argv, i)))
    else Scan(argv, i + 1, args)
  }

  /** `parseArgs()`: the loop from index 2, skipping the value after every flag. */
  method ParseArgs(argv: seq<string>) returns (args: Args)
    ensures args == Scan(argv, FIRST_ARG, map[])
  {
    args := map[];
    var i := FIRST_ARG;
    while i < |argv|
      invariant Scan(argv, FIRST_ARG, map[]) == Scan(argv, i, args)
      decreases |argv| - i
    {
      var a := argv[i];
      if a != "" && IsFlag(a) {
        var key := KeyOf(a);
        var val := ValueAfter(argv, i);
        args := Assign(args, key, val);
        i := i + 1;
      }
      i := i + 1;
    }
  }

  // ---------------------------------------------------------------- which tokens the loop reads

  /** The scan from `from` reads position `j` as a token in key position. */
  predicate Visits(argv: seq<string>, from: nat, j: nat)
    ensures Visits(argv, from, j) ==> from <= j < |argv|
    decreases |argv| - from
  {
    from < |argv| && (j == from || (j > from && Visits(argv, Next(argv, from), j)))
  }

  /**
   * The token after a flag is its value and is never read as a key; a token in key position
   * that is not a flag is skipped over to the next token.
   */
  lemma {:induction false} ValueTokensSkipped(argv: seq<string>, from: nat, j: nat)
    requires Visits(argv, from, j)
    ensures IsFlag(argv[j]) ==> !Visits(argv, from, j + 1)
    ensures !IsFlag(argv[j]) && j + 1 < |argv| ==> Visits(argv, from, j + 1)
    decreases |argv| - from
  {
    if j != from {
      ValueTokensSkipped(argv, Next(argv, from), j);
    }
  }

  /** Position `j` is a flag the scan from `from` reads, naming `key`, which becomes a property. */
  predicate Sets(argv: seq<string>, from: nat, j: nat, key: string) {
    Visits(argv, from, j) && IsFlag(argv[j]) && KeyOf(argv[j]) == key && key != PROTO_KEY
  }

  /**
   * What the scan leaves: a key is present exactly when it was present before or some flag read
   * by the scan names it (other than `__proto__`), and then it maps to the value after the last
   * such flag; keys no flag names keep their earlier value.
   */
  lemma {:induction false} ScanResult(argv: seq<string>, from: nat, args: Args, key: string)
    ensures key in Scan(argv, from, args) <==> key in args || exists j :: Sets(argv, from, j, key)
    ensures forall j :: Sets(argv, from, j, key) && (forall j' :: j < j' ==> !Sets(argv, from, j', key)) ==>
      Scan(argv, from, args)[key] == ValueAfter(argv, j)
    ensures (forall j :: !Sets(argv, from, j, key)) && key in args ==> Scan(argv, from, args)[key] == args[key]
    decreases |argv| - from
  {
    if from < |argv| {
      var n := Next(argv, from);
      var args' := if IsFlag(argv[from]) then Assign(args, KeyOf(argv[from]), ValueAfter(argv, from)) else args;
      assert Scan(argv, from, args) == Scan(argv, n, args');
      ScanResult(argv, n, args', key);
      forall j ensures Sets(argv, from, j, key) <==> (j == from && Sets(argv, from, from, key)) || Sets(argv, n, j, key) {
      }
      forall j | Sets(argv, from, j, key) && (forall j' :: j < j' ==> !Sets(argv, from, j', key))
        ensures Scan(argv, from, args)[key] == ValueAfter(argv, j)
      {
        if j == from {
          assert forall j' :: !Sets(argv, n, j', key);
        } else {
          assert Sets(argv, n, j, key);
          assert forall j' :: j < j' ==> !Sets(argv, n, j', key);
        }
      }
    }
  }

  /** The parser's contract in the script's terms, over the whole command line. */
  lemma ParsedArgs(argv: seq<string>, key: string)
    ensures var args := Scan(argv, FIRST_ARG, map[]);
      && (key in args <==> exists j :: Sets(argv, FIRST_ARG, j, key))
      && (forall j :: Sets(argv, FIRST_ARG, j, key) && (forall j' :: j < j' ==> !Sets(argv, FIRST_ARG, j', key)) ==>
            args[key] == ValueAfter(argv, j))
      && (forall j :: Sets(argv, FIRST_ARG, j, key) ==> FIRST_ARG <= j)
      && PROTO_KEY !in args
  {
    ScanResult(argv, FIRST_ARG, map[], key);
    ScanResult(argv, FIRST_ARG, map[], PROTO_KEY);
  }

  // ---------------------------------------------------------------- defaults and required arguments

  /** `args.<key>`: an absent property reads `undefined`. */
  function Get(args: Args, key: string): Option<string> {
    if key in args then args[key] else None
  }

  /** The environment variable `name`, `undefined` when unset. */
  function Env(env: map<string, string>, name: string): Option<string> {
    if name in env then Some(env[name]) else None
  }

  /** JavaScript truthiness of a string or `undefined`: neither `undefined` nor empty. */
  predicate Truthy(v: Option<string>) {
    v.Some? && v.value != ""
  }

  /** `a || b` */
  function Or(a: Option<string>, b: Option<string>): (r: Option<string>)
    ensures Truthy(r) <==> Truthy(a) || Truthy(b)
    ensures Truthy(r) ==> r == if Truthy(a) then a else b
  {
    if Truthy(a) then a else b
  }

  /** The settings the transaction is sent with. */
  datatype Config = Config(rpc: string, contract: string, to: string, amount: string, pk: string)

  /** The four exits with status 1, one per missing setting. */
  datatype ConfigError = MissingRpc | MissingContract | MissingTo | MissingPk

  function RpcSetting(args: Args, env: map<string, string>): Option<string> {
    Or(Or(Get(args, "rpc"), Env(env, "NEXT_PUBLIC_ALCHEMY_AMOY_URL")), Env(env, "ALCHEMY_AMOY_URL"))
  }

  function PkSetting(args: Args, env: map<string, string>): Option<string> {
    Or(Or(Get(args, "pk"), Env(env, "PRIVATE_KEY")), Env(env, "ADMIN_PRIVATE_KEY"))
  }

  /**
   * The settings `main` derives before sending: rpc falls back to `NEXT_PUBLIC_ALCHEMY_AMOY_URL`
   * and then to `ALCHEMY_AMOY_URL`, pk to `PRIVATE_KEY` and then to `ADMIN_PRIVATE_KEY`, the
   * amount defaults to one USDC in micro-units, and a setting that is still unset or empty
   * stops the script, rpc first, then contract, to and pk.
   */
  function FaucetConfig(args: Args, env: map<string, string>): (r: Result<Config, ConfigError>)
    ensures r.Ok? <==> Truthy(RpcSetting(args, env)) && Truthy(Get(args, "contract")) && Truthy(Get(args, "to")) && Truthy(PkSetting(args, env))
    ensures r == Err(MissingRpc) <==>
      !Truthy(Get(args, "rpc")) && !Truthy(Env(env, "NEXT_PUBLIC_ALCHEMY_AMOY_URL")) && !Truthy(Env(env, "ALCHEMY_AMOY_URL"))
    ensures r == Err(MissingContract) <==> Truthy(RpcSetting(args, env)) && !Truthy(Get(args, "contract"))
    ensures r == Err(MissingTo) <==> Truthy(RpcSetting(args, env)) && Truthy(Get(args, "contract")) && !Truthy(Get(args, "to"))
    ensures r == Err(MissingPk) <==>
      && Truthy(RpcSetting(args, env)) && Truthy(Get(args, "contract")) && Truthy(Get(args, "to"))
      && !Truthy(Get(args, "pk")) && !Truthy(Env(env, "PRIVATE_KEY")) && !Truthy(Env(env, "ADMIN_PRIVATE_KEY"))
    ensures r.Ok? ==>
      && r.value.amount == (if Truthy(Get(args, "amount")) then Get(args, "amount").value else DEFAULT_AMOUNT)
      && Some(r.value.contract) == Get(args, "contract") && Some(r.value.to) == Get(args, "to")
    ensures r.Ok? ==>
      && (Truthy(Get(args, "rpc")) ==> Some(r.value.rpc) == Get(args, "rpc"))
      && (!Truthy(Get(args, "rpc")) && Truthy(Env(env, "NEXT_PUBLIC_ALCHEMY_AMOY_URL")) ==>
            Some(r.value.rpc) == Env(env, "NEXT_PUBLIC_ALCHEMY_AMOY_URL"))
      && (!Truthy(Get(args, "rpc")) && !Truthy(Env(env, "NEXT_PUBLIC_ALCHEMY_AMOY_URL")) ==>
            Some(r.value.rpc) == Env(env, "ALCHEMY_AMOY_URL"))
    ensures r.Ok? ==>
      && (Truthy(Get(args, "pk")) ==> Some(r.value.pk) == Get(args, "pk"))
      && (!Truthy(Get(args, "pk")) && Truthy(Env(env, "PRIVATE_KEY")) ==> Some(r.value.pk) == Env(env, "PRIVATE_KEY"))
      && (!Truthy(Get(args, "pk")) && !Truthy(Env(env, "PRIVATE_KEY")) ==> Some(r.value.pk) == Env(env, "ADMIN_PRIVATE_KEY"))
  {
    var rpc := RpcSetting(args, env);
    var contract := Get(args, "contract");
    var to := Get(args, "to");
    var amount := Or(Get(args, "amount"), Some(DEFAULT_AMOUNT));
    var pk := PkSetting(args, env);
    if !Truthy(rpc) then Err(MissingRpc)
    else if !Truthy(contract) then Err(MissingContract)
    else if !Truthy(to) then Err(MissingTo)
    else if !Truthy(pk) then Err(MissingPk)
    else Ok(Config(rpc.value, contract.value, to.value, amount.value, pk.value))
  }

  /** A command line with contract and recipient, rpc and key from the environment, takes the default amount. */
  lemma DefaultAmountFromEnvironment()
    ensures var argv := ["node", "runFaucet.js", "--contract", "0xC", "--to", "0xT"];
      var env := map["ALCHEMY_AMOY_URL" := "https://rpc", "PRIVATE_KEY" := "0xK"];
      FaucetConfig(Scan(argv, FIRST_ARG, map[]), env) == Ok(Config("https://rpc", "0xC", "0xT", DEFAULT_AMOUNT, "0xK"))
  {
    var argv := ["node", "runFaucet.js", "--contract", "0xC", "--to", "0xT"];
    assert IsFlag(argv[2]) && KeyOf(argv[2]) == "contract";
    assert IsFlag(argv[4]) && KeyOf(argv[4]) == "to";
  }

  /** A trailing `--to` leaves its value `undefined`, so the script stops at the recipient check. */
  lemma TrailingFlagIsMissing()
    ensures var argv := ["node", "runFaucet.js", "--rpc", "https://rpc", "--contract", "0xC", "--to"];
      FaucetConfig(Scan(argv, FIRST_ARG, map[]), map[]) == Err(MissingTo)
  {
    var argv := ["node", "runFaucet.js", "--rpc", "https://rpc", "--contract", "0xC", "--to"];
    assert IsFlag(argv[2]) && KeyOf(argv[2]) == "rpc";
    assert IsFlag(argv[4]) && KeyOf(argv[4]) == "contract";
    assert IsFlag(argv[6]) && KeyOf(argv[6]) == "to";
  }
}
