/**
 * The interactive wallet agent (`CryptoAIAgent` of the command-line chat
 * demo): it keeps the wallets it created, finds a tracked wallet by address
 * and infers its chain, lets the user pick a wallet by number, spends a
 * bounded budget of chat-model calls, and describes its wallets to the
 * model. The wallet API calls, the chat model and the terminal are inputs.
 */
module CliAgent {
  import opened PyValue
  import WalletUtils
  import Registry

  const MaxApiCalls := 20

  function NoApiKeyMessage(): string { "No API key found in .env file" }
  function NoSignerMessage(): string { "No signer address found in .env file, be " + "sure to run 'python generate_keys.py' " + "inside '/src/library' to generate a new " + "set of keys" }
  function NotTrackedMessage(): string { "Wallet not found in tracked wallets" }
  function NoTreasuryMessage(): string { "No treasury wallet found in .env file" }
  function NoDestinationMessage(): string { "No destination wallet selected" }
  function BudgetMessage(): string { "Maximum API calls reached. Please " + "restart the program." }
  /** `str(EOFError())` as `input()` raises it once standard input is exhausted. */
  function EofMessage(): string { "EOF when reading a line" }
  function NoWalletsContext(): string { "No wallets created yet." }
  function EvmChain(): string { "ethereum-sepolia" }
  function SolanaChain(): string { "solana-devnet" }

  /** One use of a wallet API function: its result, and the arguments it was called with, if called. */
  datatype ApiUse<Q> = ApiUse(result: Py<Json>, sent: Option<Q>)

  /** The arguments of `get_wallet_balance(api_key, chain, wallet_address)`. */
  datatype BalanceQuery = BalanceQuery(apiKey: string, chain: string, walletAddress: Json)

  /** The arguments of `deposit_tokens(api_key, treasury_wallet, wallet_address, amount)`. */
  datatype DepositQuery = DepositQuery(apiKey: string, treasuryWallet: string, walletAddress: Json, amount: Json)

  /** The arguments of `transfer_tokens(api_key, chain, wallet_address, amount)`. */
  datatype TransferQuery = TransferQuery(apiKey: string, chain: string, destination: Json, amount: Json)

  // ---------------------------------------------------------------------
  // Lookup by address: `next((w for w in wallets if w['address'] == a), None)`

  /** None of the first `n` wallets raises on `w['address']` or has address `address`. */
  ghost predicate PassedOver(ws: seq<Json>, address: Json, n: nat)
    requires n <= |ws|
  {
    forall j :: 0 <= j < n ==> Subscript(ws[j], "address").Ok? && !PyEq(Subscript(ws[j], "address").value, address)
  }

  /** Wallet `k` is the first one the generator yields for `address`. */
  ghost predicate IsFirstMatch(ws: seq<Json>, address: Json, k: int) {
    && 0 <= k < |ws|
    && PassedOver(ws, address, k)
    && Subscript(ws[k], "address").Ok?
    && PyEq(Subscript(ws[k], "address").value, address)
  }

  /**
   * The position of the first tracked wallet whose address equals
   * `address`, `None` when there is none, or the exception `w['address']`
   * raises on the first wallet without one.
   */
  function FindByAddress(ws: seq<Json>, address: Json): (r: Py<Option<nat>>)
    ensures r.Ok? && r.value.Some? ==> IsFirstMatch(ws, address, r.value.value)
    ensures r.Ok? && r.value.None? ==> PassedOver(ws, address, |ws|)
    ensures r.Raised? ==>
      exists k :: 0 <= k < |ws| && PassedOver(ws, address, k) && Subscript(ws[k], "address") == Raised(r.message)
    decreases |ws|
  {
    if ws == [] then Ok(None)
    else
      match Subscript(ws[0], "address")
      case Raised(m) => assert PassedOver(ws, address, 0); Raised(m)
      case Ok(a) =>
        if PyEq(a, address) then Ok(Some(0))
        else
          var rest := FindByAddress(ws[1..], address);
          ShiftPassedOver(ws, address, rest);
          match rest
          case Raised(m) => Raised(m)
          case Ok(None) => Ok(None)
          case Ok(Some(j)) => Ok(Some(j + 1))
  }

  /** What the search over `ws[1..]` says about `ws`, once `ws[0]` is passed over. */
  lemma {:induction false} ShiftPassedOver(ws: seq<Json>, address: Json, rest: Py<Option<nat>>)
    requires ws != [] && PassedOver(ws, address, 1)
    requires rest.Ok? && rest.value.Some? ==> IsFirstMatch(ws[1..], address, rest.value.value)
    requires rest.Ok? && rest.value.None? ==> PassedOver(ws[1..], address, |ws| - 1)
    requires rest.Raised? ==>
      exists k :: 0 <= k < |ws| - 1 && PassedOver(ws[1..], address, k) && Subscript(ws[1..][k], "address") == Raised(rest.message)
    ensures rest.Ok? && rest.value.Some? ==> IsFirstMatch(ws, address, rest.value.value + 1)
    ensures rest.Ok? && rest.value.None? ==> PassedOver(ws, address, |ws|)
    ensures rest.Raised? ==>
      exists k :: 0 <= k < |ws| && PassedOver(ws, address, k) && Subscript(ws[k], "address") == Raised(rest.message)
  {
    forall n | 0 <= n < |ws| && PassedOver(ws[1..], address, n) ensures PassedOver(ws, address, n + 1) {
      forall j | 0 <= j < n + 1 ensures Subscript(ws[j], "address").Ok? && !PyEq(Subscript(ws[j], "address").value, address) {
        if j > 0 {
          assert ws[j] == ws[1..][j - 1];
        }
      }
    }
    if rest.Raised? {
      var k :| 0 <= k < |ws| - 1 && PassedOver(ws[1..], address, k) && Subscript(ws[1..][k], "address") == Raised(rest.message);
      assert ws[k + 1] == ws[1..][k];
    }
  }

  /** The chain a tracked wallet's type implies: `wallet['type'] == "evm-smart-wallet"`. */
  function ChainOf(walletType: Json): (chain: string)
    ensures chain == EvmChain() <==> walletType == JStr(WalletUtils.EvmSmartWallet())
    ensures chain != EvmChain() ==> chain == SolanaChain()
  {
    PyEqString(walletType, WalletUtils.EvmSmartWallet());
    if PyEq(walletType, JStr(WalletUtils.EvmSmartWallet())) then EvmChain() else SolanaChain()
  }

  // ---------------------------------------------------------------------
  // Wallet selection: list every wallet, then read numbers until one is in range

  /** A wallet the listing can print: `wallet['address']` and `wallet['type']` do not raise. */
  predicate Listable(w: Json) {
    Subscript(w, "address").Ok? && Subscript(w, "type").Ok?
  }

  /**
   * The exception the listing `print(f"{i+1}. {wallet['address']} (Type: {wallet['type']})")`
   * raises, if any, from wallet `i` on: the first wallet without an address or a type.
   */
  function ListingError(ws: seq<Json>, i: nat): (r: Option<string>)
    requires i <= |ws|
    ensures r.Some? ==> i < |ws|
    decreases |ws| - i
  {
    if i == |ws| then None
    else if Subscript(ws[i], "address").Raised? then Some(Subscript(ws[i], "address").message)
    else if Subscript(ws[i], "type").Raised? then Some(Subscript(ws[i], "type").message)
    else ListingError(ws, i + 1)
  }

  /** The listing raises nothing exactly when every wallet is listable. */
  lemma {:induction false} ListingErrorMeaning(ws: seq<Json>, i: nat)
    requires i <= |ws|
    ensures ListingError(ws, i).None? <==> forall k :: i <= k < |ws| ==> Listable(ws[k])
    decreases |ws| - i
  {
    if i < |ws| {
      ListingErrorMeaning(ws, i + 1);
    }
  }

  /** Each wallet of a listing that raises nothing is listable. */
  lemma {:induction false} ListedAt(ws: seq<Json>, i: nat, k: nat)
    requires i <= k < |ws| && ListingError(ws, i).None?
    ensures Listable(ws[k])
    decreases k - i
  {
    if i < k {
      ListedAt(ws, i + 1, k);
    }
  }

  /** A wallet the listing can print is a dict with an address and a type. */
  lemma {:induction false} ListedWallet(w: Json)
    requires Listable(w)
    ensures w.JDict? && "address" in w.fields && "type" in w.fields
    ensures Subscript(w, "address") == Ok(w.fields["address"])
  {
  }

  /**
   * An input line names a wallet: `int(line) - 1` is a valid position.
   * `toInt` is `int` on a line, `None` where it raises `ValueError`; the
   * agent uses `ParseInt`.
   */
  predicate ValidChoice(line: string, count: nat, toInt: string -> Option<int>) {
    toInt(line).Some? && 0 <= toInt(line).value - 1 < count
  }

  /** None of the lines from `from` up to `to` names one of `count` wallets. */
  ghost predicate NoneValid(inputs: seq<string>, from: nat, to: int, count: nat, toInt: string -> Option<int>)
    requires to <= |inputs|
  {
    forall j :: from <= j < to ==> !ValidChoice(inputs[j], count, toInt)
  }

  /** The outcome of `select_wallet`: what it returns or raises, and how many input lines it read. */
  datatype Selection = Selection(result: Py<Json>, consumed: nat)

  /** What the `while True` loop reads: the position of the wallet chosen, if any, and how many lines have been read when it stops. */
  datatype Attempts = Attempts(choice: Option<nat>, consumed: nat)

  /** The `while True` loop over `count` listed wallets, once `i` lines of `inputs` have been read. */
  function ReadChoice(count: nat, inputs: seq<string>, i: nat, toInt: string -> Option<int>): (a: Attempts)
    requires i <= |inputs|
    ensures a.choice.Some? ==> a.choice.value < count
    decreases |inputs| - i
  {
    if i == |inputs| then Attempts(None, i)
    else if ValidChoice(inputs[i], count, toInt) then Attempts(Some(toInt(inputs[i]).value - 1), i + 1)
    else ReadChoice(count, inputs, i + 1, toInt)
  }

  /** What the loop ends with: `wallets[choice]['address']`, or `EOFError` when no line named a wallet. */
  function Picked(ws: seq<Json>, choice: Option<nat>): Py<Json>
    requires choice.Some? ==> choice.value < |ws|
  {
    if choice.Some? then Subscript(ws[choice.value], "address") else Raised(EofMessage())
  }

  /** `select_wallet()` over the wallet list `ws`, reading the lines `inputs`. */
  function SelectFrom(ws: seq<Json>, inputs: seq<string>, toInt: string -> Option<int>): Selection {
    if ws == [] then Selection(Ok(JNull), 0)
    else if ListingError(ws, 0).Some? then Selection(Raised(ListingError(ws, 0).value), 0)
    else
      var a := ReadChoice(|ws|, inputs, 0, toInt);
      Selection(Picked(ws, a.choice), a.consumed)
  }

  /**
   * From line `i` on, the loop stops at the first line that names a
   * wallet, k+1 for wallet k, having read only lines that named none;
   * without such a line it reads every line.
   */
  lemma {:induction false} ReadChoiceStopsAtFirstValid(count: nat, inputs: seq<string>, i: nat, toInt: string -> Option<int>)
    requires i <= |inputs|
    ensures var a := ReadChoice(count, inputs, i, toInt);
      && i <= a.consumed <= |inputs|
      && NoneValid(inputs, i, a.consumed - 1, count, toInt)
      && (a.choice.Some? <==> a.consumed > i && ValidChoice(inputs[a.consumed - 1], count, toInt))
      && (a.choice.Some? ==> a.choice.value == toInt(inputs[a.consumed - 1]).value - 1)
      && (a.choice.None? ==> a.consumed == |inputs|)
    decreases |inputs| - i
  {
    if i < |inputs| && !ValidChoice(inputs[i], count, toInt) {
      ReadChoiceStopsAtFirstValid(count, inputs, i + 1, toInt);
    }
  }

  /**
   * With every wallet listed, `select_wallet` returns exactly when it read
   * a line naming wallet k+1, and then returns `wallets[k]['address']`
   * (an address by `ListedWallet`),
   * after lines that named no wallet; otherwise it read every line and
   * raised `EOFError`.
   */
  lemma {:induction false} SelectFromMeaning(ws: seq<Json>, inputs: seq<string>, toInt: string -> Option<int>)
    requires ws != [] && ListingError(ws, 0).None?
    ensures var s := SelectFrom(ws, inputs, toInt);
      && s.consumed <= |inputs|
      && NoneValid(inputs, 0, s.consumed - 1, |ws|, toInt)
      && (s.result.Ok? <==> s.consumed > 0 && ValidChoice(inputs[s.consumed - 1], |ws|, toInt))
      && (s.result.Ok? ==>
            var k := toInt(inputs[s.consumed - 1]).value - 1;
            0 <= k < |ws| && s.result == Subscript(ws[k], "address"))
      && (s.result.Raised? ==> s.consumed == |inputs| && s.result.message == EofMessage())
  {
    ReadChoiceStopsAtFirstValid(|ws|, inputs, 0, toInt);
    var a := ReadChoice(|ws|, inputs, 0, toInt);
    var s := SelectFrom(ws, inputs, toInt);
    assert s == Selection(Picked(ws, a.choice), a.consumed);
    if a.choice.Some? {
      var k := a.choice.value;
      ListedAt(ws, 0, k);
      assert s.result == Subscript(ws[k], "address");
    }
  }

  /** `select_wallet` returns `None` without reading a line when no wallet is tracked. */
  lemma {:induction false} SelectFromEmpty(inputs: seq<string>, toInt: string -> Option<int>)
    ensures SelectFrom([], inputs, toInt) == Selection(Ok(JNull), 0)
  {
  }

  // ---------------------------------------------------------------------
  // The wallet context shown to the chat model

  /** `w.get(key, default)` on a wallet already known to be a dict. */
  function FieldOr(w: Json, key: string, default: string): Json {
    if w.JDict? && key in w.fields then w.fields[key] else JStr(default)
  }

  /** `f"Wallet {i+1}: {w.get('address', 'No address')} (Type: {w.get('type', 'unknown')})"` */
  function WalletLine(number: int, w: Json, pyStr: Json -> string): string {
    "Wallet " + IntToString(number) + ": " + Format(FieldOr(w, "address", "No address"), pyStr) +
    " (Type: " + Format(FieldOr(w, "type", "unknown"), pyStr) + ")"
  }

  /** The message of `AttributeError` for `.get` on a value that is not a dict. */
  function NoGetMessage(v: Json): string {
    "'" + TypeName(v) + "' object has no attribute 'get'"
  }

  /** The position of the first wallet that is not a dict, or `|ws|` when all are. */
  function FirstNonDict(ws: seq<Json>): (k: nat)
    ensures k <= |ws| && (forall j :: 0 <= j < k ==> ws[j].JDict?) && (k < |ws| ==> !ws[k].JDict?)
    decreases |ws|
  {
    if ws == [] then 0
    else
      var init := ws[..|ws| - 1];
      var k := FirstNonDict(init);
      assert forall j :: 0 <= j < |init| ==> init[j] == ws[j];
      if k < |init| then k else if ws[|ws| - 1].JDict? then |ws| else |init|
  }

  /**
   * The list comprehension over `enumerate(self.wallets)`, evaluated in
   * order with `line` giving the text of wallet `i+1`: the first wallet
   * that is not a dict raises.
   */
  function WalletDetails(ws: seq<Json>, line: (int, Json) -> string): (r: Py<seq<string>>)
    ensures r.Ok? <==> FirstNonDict(ws) == |ws|
    ensures r.Ok? ==> |r.value| == |ws|
    ensures r.Raised? ==> r.message == NoGetMessage(ws[FirstNonDict(ws)])
    decreases |ws|
  {
    if ws == [] then Ok([])
    else
      var init := ws[..|ws| - 1];
      var last := ws[|ws| - 1];
      assert forall k :: 0 <= k < |init| ==> init[k] == ws[k];
      match WalletDetails(init, line)
      case Raised(m) => Raised(m)
      case Ok(lines) =>
        if last.JDict? then Ok(lines + [line(|ws|, last)])
        else Raised(NoGetMessage(last))
  }

  /** Line k of the comprehension describes wallet k, numbered k+1. */
  lemma {:induction false} WalletDetailsLines(ws: seq<Json>, line: (int, Json) -> string)
    requires WalletDetails(ws, line).Ok?
    ensures forall k :: 0 <= k < |ws| ==> WalletDetails(ws, line).value[k] == line(k + 1, ws[k])
    decreases |ws|
  {
    if ws != [] {
      var init := ws[..|ws| - 1];
      WalletDetailsLines(init, line);
      forall k | 0 <= k < |init| ensures WalletDetails(ws, line).value[k] == line(k + 1, ws[k]) {
        assert init[k] == ws[k];
      }
    }
  }

  /** `sep.join(parts)` */
  function Join(sep: string, parts: seq<string>): string
    decreases |parts|
  {
    if parts == [] then ""
    else if |parts| == 1 then parts[0]
    else Join(sep, parts[..|parts| - 1]) + sep + parts[|parts| - 1]
  }

  /** The f-string of the comprehension, as a function of the number and the wallet. */
  function LineOf(pyStr: Json -> string): (int, Json) -> string {
    (number, w) => WalletLine(number, w, pyStr)
  }

  /** One description per wallet, numbered from 1 in list order; the agent uses `LineOf`. */
  function WalletLines(ws: seq<Json>, line: (int, Json) -> string): (lines: seq<string>)
    ensures |lines| == |ws|
  {
    seq(|ws|, k requires 0 <= k < |ws| => line(k + 1, ws[k]))
  }

  /** Evaluating the comprehension yields the wallet descriptions, when it does not raise. */
  lemma {:induction false} DetailsAreWalletLines(ws: seq<Json>, line: (int, Json) -> string)
    requires WalletDetails(ws, line).Ok?
    ensures WalletDetails(ws, line).value == WalletLines(ws, line)
  {
    WalletDetailsLines(ws, line);
  }

  /**
   * The wallet context of `chat_completion`: a fixed text for no wallets,
   * otherwise one line per wallet, numbered from 1 in list order.
   */
  function WalletContext(ws: seq<Json>, pyStr: Json -> string): (r: Py<string>)
    ensures ws == [] ==> r == Ok(NoWalletsContext())
    ensures ws != [] && FirstNonDict(ws) == |ws| ==> r == Ok("Available wallets:\n" + Join("\n", WalletLines(ws, LineOf(pyStr))))
    ensures r.Raised? <==> FirstNonDict(ws) < |ws|
    ensures r.Raised? ==> r.message == NoGetMessage(ws[FirstNonDict(ws)])
  {
    if ws == [] then Ok(NoWalletsContext())
    else
      match WalletDetails(ws, LineOf(pyStr))
      case Raised(m) => Raised(m)
      case Ok(lines) =>
        DetailsAreWalletLines(ws, LineOf(pyStr));
        Ok("Available wallets:\n" + Join("\n", lines))
  }

  function PromptIntro(): string { "You are a super helpful AI web3 " + "assistant that can perform actions on " + "the blockchain using Crossmint's API." }
  function PromptOffer(): string { "You can create new wallets, check the " + "balance of existing wallets, deposit " + "tokens to a wallet, transfer tokens " + "between wallets, and more." }
  function Indent(): string { "        " }

  /** The system prompt of `chat_completion`, with the wallet context in its place. */
  function ContextualPrompt(walletContext: string): string {
    PromptIntro() + "\n\n" + Indent() + "Current wallet status:\n" + Indent() + walletContext + "\n\n" + Indent() + PromptOffer()
  }

  // ---------------------------------------------------------------------

  class CryptoAIAgent {
    var apiKey: string
    var signerAddress: string
    var evmTreasuryWallet: Option<string>
    var wallets: seq<Json>
    var apiCalls: int
    var maxApiCalls: int
    /** Every result `create_new_wallet` has returned, in order. */
    ghost var results: seq<Json>

    /** The wallet list is the outcome of the creations so far, and the call budget is kept. */
    ghost predicate Valid()
      reads this
    {
      && Registry.AllTrackable(results)
      && wallets == Registry.Tracked(results)
      && maxApiCalls == MaxApiCalls
      && 0 <= apiCalls <= maxApiCalls
    }

    /** The field initialisation of `__init__`, once both keys are known to be set. */
    constructor (apiKey: string, signerAddress: string, evmTreasuryWallet: Option<string>)
      ensures Valid()
      ensures this.apiKey == apiKey && this.signerAddress == signerAddress && this.evmTreasuryWallet == evmTreasuryWallet
      ensures wallets == [] && results == [] && apiCalls == 0 && maxApiCalls == MaxApiCalls
    {
      this.apiKey := apiKey;
      this.signerAddress := signerAddress;
      this.evmTreasuryWallet := evmTreasuryWallet;
      wallets := [];
      results := [];
      apiCalls := 0;
      maxApiCalls := MaxApiCalls;
    }

    /** `CryptoAIAgent()` over the environment `env`: both the API key and the signer address must be set. */
    static method Init(env: map<string, string>) returns (r: Py<CryptoAIAgent>)
      ensures !IsSet(GetEnv(env, "CROSSMINT_SERVER_API_KEY")) ==> r == Raised(NoApiKeyMessage())
      ensures IsSet(GetEnv(env, "CROSSMINT_SERVER_API_KEY")) && !IsSet(GetEnv(env, "SIGNER_ADDRESS")) ==> r == Raised(NoSignerMessage())
      ensures r.Ok? <==> IsSet(GetEnv(env, "CROSSMINT_SERVER_API_KEY")) && IsSet(GetEnv(env, "SIGNER_ADDRESS"))
      ensures r.Ok? ==>
        && fresh(r.value) && r.value.Valid()
        && r.value.apiKey == env["CROSSMINT_SERVER_API_KEY"]
        && r.value.signerAddress == env["SIGNER_ADDRESS"]
        && r.value.evmTreasuryWallet == GetEnv(env, "TEST_TREASURY_EVM_WALLET")
        && r.value.wallets == [] && r.value.apiCalls == 0 && r.value.maxApiCalls == MaxApiCalls
    {
      var key := GetEnv(env, "CROSSMINT_SERVER_API_KEY");
      if !IsSet(key) {
        return Raised(NoApiKeyMessage());
      }
      var signer := GetEnv(env, "SIGNER_ADDRESS");
      if !IsSet(signer) {
        return Raised(NoSignerMessage());
      }
      var agent := new CryptoAIAgent(key.value, signer.value, GetEnv(env, "TEST_TREASURY_EVM_WALLET"));
      return Ok(agent);
    }

    /**
     * `create_new_wallet(wallet_type)`: create a wallet for the agent's
     * signer, track its data when creation succeeds, and return the result
     * of `create_wallet` as it is.
     */
    method CreateNewWallet(walletType: string, reply: WalletUtils.Reply, now: string) returns (result: Json, sent: Option<WalletUtils.Request>)
      requires Valid()
      modifies this
      ensures Valid()
      ensures result == WalletUtils.CreationResult(walletType, signerAddress, reply, now)
      // the request is the one `create_wallet` sends with the stored key
      ensures WalletUtils.Created(sent, result) == WalletUtils.CreateWallet(apiKey, walletType, signerAddress, reply, now)
      ensures results == old(results) + [result]
      ensures wallets == old(wallets) + Registry.Appended(result)
      ensures apiKey == old(apiKey) && signerAddress == old(signerAddress) && evmTreasuryWallet == old(evmTreasuryWallet)
      ensures apiCalls == old(apiCalls) && maxApiCalls == old(maxApiCalls)
    {
      sent := WalletUtils.SentRequest(apiKey, walletType, signerAddress);
      result := WalletUtils.CreationResult(walletType, signerAddress, reply, now);
      WalletUtils.SuccessCarriesWalletData(walletType, signerAddress, reply, now);
      Track(result);
    }

    /** `if result.get("status") == "success"`: the wallet data of a successful result joins the wallet list. */
    method Track(result: Json)
      requires Valid() && result.JDict? && Registry.Trackable(result)
      modifies this
      ensures Valid()
      ensures results == old(results) + [result]
      ensures wallets == old(wallets) + Registry.Appended(result)
      ensures apiKey == old(apiKey) && signerAddress == old(signerAddress) && evmTreasuryWallet == old(evmTreasuryWallet)
      ensures apiCalls == old(apiCalls) && maxApiCalls == old(maxApiCalls)
    {
      Registry.TrackedAppend(results, result);
      if Registry.Succeeded(result) {
        wallets := wallets + [result.fields["wallet_data"]];
      }
      results := results + [result];
    }

    /** `get_wallet_count()`: the number of successful creations since construction. */
    function GetWalletCount(): (n: nat)
      requires Valid()
      reads this
      ensures n == |wallets| && n == Registry.SuccessCount(results)
    {
      Registry.TrackedCountsSuccesses(results);
      |wallets|
    }

    /**
     * `get_wallet_balance(wallet_address)`: an untracked address is an
     * error without a call; a tracked one is queried on the chain its type
     * implies.
     */
    function GetWalletBalance(walletAddress: Json, balanceApi: BalanceQuery -> Py<Json>): (r: ApiUse<BalanceQuery>)
      reads this
      ensures PassedOver(wallets, walletAddress, |wallets|) ==>
        r == ApiUse(Ok(StatusMessage("error", NotTrackedMessage())), None)
      // `w['address']` raising on a wallet before any match raises out of the lookup, with no query
      ensures FindByAddress(wallets, walletAddress).Raised? ==>
        r == ApiUse(Raised(FindByAddress(wallets, walletAddress).message), None)
      ensures forall k :: IsFirstMatch(wallets, walletAddress, k) ==>
        (r.sent.Some? <==> Subscript(wallets[k], "type").Ok?) &&
        (Subscript(wallets[k], "type").Raised? ==> r.result == Raised(Subscript(wallets[k], "type").message))
      ensures r.sent.Some? ==>
        && r.result == balanceApi(r.sent.value)
        && r.sent.value.apiKey == apiKey && r.sent.value.walletAddress == walletAddress
        && exists k :: IsFirstMatch(wallets, walletAddress, k) &&
             (r.sent.value.chain == EvmChain() <==> Subscript(wallets[k], "type") == Ok(JStr(WalletUtils.EvmSmartWallet()))) &&
             (r.sent.value.chain == EvmChain() || r.sent.value.chain == SolanaChain())
    {
      match FindByAddress(wallets, walletAddress)
      case Raised(m) => ApiUse(Raised(m), None)
      case Ok(found) =>
        if found.None? || !Truthy(wallets[found.value]) then
          ApiUse(Ok(StatusMessage("error", NotTrackedMessage())), None)
        else
          var k := found.value;
          FirstMatchUnique(wallets, walletAddress, k);
          match Subscript(wallets[k], "type")
          case Raised(m) => ApiUse(Raised(m), None)
          case Ok(walletType) =>
            var query := BalanceQuery(apiKey, ChainOf(walletType), walletAddress);
            ApiUse(balanceApi(query), Some(query))
    }

    /** `deposit_tokens(wallet_address, amount)`: only with a treasury wallet configured. */
    function DepositTokens(walletAddress: Json, amount: Json, depositApi: DepositQuery -> Py<Json>): (r: ApiUse<DepositQuery>)
      reads this
      ensures r.sent.None? <==> !IsSet(evmTreasuryWallet)
      ensures r.sent.None? ==> r.result == Raised(NoTreasuryMessage())
      ensures r.sent.Some? ==>
        r.sent.value == DepositQuery(apiKey, evmTreasuryWallet.value, walletAddress, amount) && r.result == depositApi(r.sent.value)
    {
      if !IsSet(evmTreasuryWallet) then ApiUse(Raised(NoTreasuryMessage()), None)
      else
        var query := DepositQuery(apiKey, evmTreasuryWallet.value, walletAddress, amount);
        ApiUse(depositApi(query), Some(query))
    }

    /**
     * `select_wallet()`, reading the user's answers from `inputs` and
     * converting them with `toInt`, the `int` of the source (the agent
     * passes `ParseInt`): it returns what `SelectFrom` describes, and reads
     * one line per attempt.
     */
    method SelectWallet(inputs: seq<string>, toInt: string -> Option<int>) returns (r: Py<Json>, consumed: nat)
      ensures Selection(r, consumed) == SelectFrom(wallets, inputs, toInt)
    {
      if wallets == [] {
        return Ok(JNull), 0;
      }
      var listing := ListingError(wallets, 0);
      if listing.Some? {
        return Raised(listing.value), 0;
      }
      consumed := 0;
      while true
        invariant consumed <= |inputs|
        invariant ReadChoice(|wallets|, inputs, 0, toInt) == ReadChoice(|wallets|, inputs, consumed, toInt)
        decreases |inputs| - consumed
      {
        if consumed == |inputs| {
          return Raised(EofMessage()), consumed;
        }
        var line := inputs[consumed];
        consumed := consumed + 1;
        var choice := toInt(line);
        if choice.Some? && 0 <= choice.value - 1 < |wallets| {
          return Subscript(wallets[choice.value - 1], "address"), consumed;
        }
      }
    }

    /**
     * The second `transfer_tokens_to_wallet(chain, amount)`, which replaces
     * the first: the destination is the wallet the user selects, and no
     * transfer is made without one.
     */
    method TransferTokensToWallet(chain: string, amount: Json, inputs: seq<string>, transferApi: TransferQuery -> Py<Json>)
      returns (r: ApiUse<TransferQuery>, consumed: nat)
      ensures consumed == SelectFrom(wallets, inputs, ParseInt).consumed
      ensures SelectFrom(wallets, inputs, ParseInt).result.Raised? ==> r == ApiUse(SelectFrom(wallets, inputs, ParseInt).result, None)
      ensures SelectFrom(wallets, inputs, ParseInt).result.Ok? && !Truthy(SelectFrom(wallets, inputs, ParseInt).result.value) ==>
        r == ApiUse(Ok(StatusMessage("error", NoDestinationMessage())), None)
      ensures r.sent.Some? <==> SelectFrom(wallets, inputs, ParseInt).result.Ok? && Truthy(SelectFrom(wallets, inputs, ParseInt).result.value)
      ensures r.sent.Some? ==>
        r.sent.value == TransferQuery(apiKey, chain, SelectFrom(wallets, inputs, ParseInt).result.value, amount) &&
        r.result == transferApi(r.sent.value)
    {
      var destination;
      destination, consumed := SelectWallet(inputs, ParseInt);
      if destination.Raised? {
        return ApiUse(destination, None), consumed;
      }
      if !Truthy(destination.value) {
        return ApiUse(Ok(StatusMessage("error", NoDestinationMessage())), None), consumed;
      }
      var query := TransferQuery(apiKey, chain, destination.value, amount);
      r := ApiUse(transferApi(query), Some(query));
    }

    /** The call budget of `chat_completion`: a call is counted while the budget lasts. */
    method CountApiCall() returns (counted: bool)
      requires Valid()
      modifies this
      ensures Valid()
      ensures counted <==> old(apiCalls) < maxApiCalls
      ensures apiCalls == (if counted then old(apiCalls) + 1 else old(apiCalls))
      ensures wallets == old(wallets) && results == old(results) && maxApiCalls == old(maxApiCalls)
      ensures apiKey == old(apiKey) && signerAddress == old(signerAddress) && evmTreasuryWallet == old(evmTreasuryWallet)
    {
      if apiCalls >= maxApiCalls {
        return false;
      }
      apiCalls := apiCalls + 1;
      return true;
    }

    /**
     * `chat_completion(user_input)`: refuse once the budget is spent;
     * otherwise count the call, describe the wallets and ask the chat
     * model (`complete`, given the system prompt and the user's text).
     */
    method ChatCompletion(userInput: string, pyStr: Json -> string, complete: (string, string) -> Py<Json>) returns (r: Py<Json>)
      requires Valid()
      modifies this
      ensures Valid()
      ensures old(apiCalls) >= maxApiCalls ==> r == Raised(BudgetMessage()) && apiCalls == old(apiCalls)
      ensures old(apiCalls) < maxApiCalls ==>
        && apiCalls == old(apiCalls) + 1
        && (WalletContext(wallets, pyStr).Raised? ==> r == Raised(WalletContext(wallets, pyStr).message))
        && (WalletContext(wallets, pyStr).Ok? ==> r == complete(ContextualPrompt(WalletContext(wallets, pyStr).value), userInput))
      ensures wallets == old(wallets) && results == old(results) && maxApiCalls == old(maxApiCalls)
      ensures apiKey == old(apiKey) && signerAddress == old(signerAddress) && evmTreasuryWallet == old(evmTreasuryWallet)
    {
      var counted := CountApiCall();
      if !counted {
        return Raised(BudgetMessage());
      }
      var walletContext := WalletContext(wallets, pyStr);
      if walletContext.Raised? {
        return Raised(walletContext.message);
      }
      r := complete(ContextualPrompt(walletContext.value), userInput);
    }
  }

  /** There is only one first match. */
  lemma {:induction false} FirstMatchUnique(ws: seq<Json>, address: Json, k: int)
    requires IsFirstMatch(ws, address, k)
    ensures forall j :: IsFirstMatch(ws, address, j) ==> j == k
  {
  }
}
