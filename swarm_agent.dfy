/**
 * The swarm demo's agent (`src/hello-world-openai-swarm/run.py`): wallet
 * creation whose request is first rewritten by an AI helper and whose
 * successful result is annotated with the helper's analysis. The helper's
 * two calls are function parameters: `enhance(walletType, signerAddress)`
 * is `enhance_wallet_request`, `analyze(result)` is `analyze_wallet_creation`.
 */
module SwarmAgent {
  import opened PyValue
  import WalletUtils
  import Registry

  function NoKeysMessage(): string { "Both Crossmint and OpenAI API keys are " + "required" }

  /**
   * What one `create_new_wallet` call does: what it returns or raises, and
   * the result of `create_wallet` when it got that far.
   */
  datatype SwarmCreation = SwarmCreation(result: Py<Json>, created: Option<Json>)

  /**
   * `create_wallet(api_key, wallet_type, signer_address)` of an agent with
   * Crossmint key `apiKey`, where `api(sent)` is the backend's answer to
   * the request `sent` (if any).
   */
  function Creation(apiKey: string, api: Option<WalletUtils.Request> -> WalletUtils.Reply, now: string): (string, string) -> Json {
    (walletType: string, signerAddress: string) =>
      WalletUtils.CreationResult(walletType, signerAddress, api(WalletUtils.SentRequest(apiKey, walletType, signerAddress)), now)
  }

  /**
   * `create_new_wallet(wallet_type, signer_address)`, where `create` is
   * the agent's `create_wallet` (`Creation` of its key).
   */
  function EnhancedCreate(walletType: string, signerAddress: string, create: (string, string) -> Json,
                          enhance: (string, string) -> Py<map<string, string>>, analyze: Json -> Py<Json>): (c: SwarmCreation)
    // `create_wallet` runs exactly when the enhanced request has both fields, and on those fields
    ensures c.created.Some? <==>
      enhance(walletType, signerAddress).Ok? &&
      "wallet_type" in enhance(walletType, signerAddress).value && "signer_address" in enhance(walletType, signerAddress).value
    ensures c.created.Some? ==>
      var e := enhance(walletType, signerAddress).value;
      c.created.value == create(e["wallet_type"], e["signer_address"])
    // the request can fail before any wallet is created
    ensures enhance(walletType, signerAddress).Raised? ==> c.result == Raised(enhance(walletType, signerAddress).message)
    ensures enhance(walletType, signerAddress).Ok? && "wallet_type" !in enhance(walletType, signerAddress).value ==>
      c.result == Raised(KeyErrorText("wallet_type"))
    ensures (enhance(walletType, signerAddress).Ok? && "wallet_type" in enhance(walletType, signerAddress).value &&
             "signer_address" !in enhance(walletType, signerAddress).value) ==>
      c.result == Raised(KeyErrorText("signer_address"))
    // a result is returned only once `create_wallet` ran
    ensures c.result.Ok? ==> c.created.Some?
    ensures c.created.Some? && !Registry.Succeeded(c.created.value) ==> c.result == Ok(c.created.value)
    ensures c.created.Some? && Registry.Succeeded(c.created.value) ==>
      match analyze(c.created.value)
      case Ok(analysis) =>
        c.result == Ok(JDict(c.created.value.fields["ai_analysis" := analysis])) &&
        c.result.value.fields.Keys == c.created.value.fields.Keys + {"ai_analysis"}
      case Raised(message) => c.result == Raised(message)
  {
    match enhance(walletType, signerAddress)
    case Raised(message) => SwarmCreation(Raised(message), None)
    case Ok(request) =>
      if "wallet_type" !in request then SwarmCreation(Raised(KeyErrorText("wallet_type")), None)
      else if "signer_address" !in request then SwarmCreation(Raised(KeyErrorText("signer_address")), None)
      else
        var result := create(request["wallet_type"], request["signer_address"]);
        if !Registry.Succeeded(result) then SwarmCreation(Ok(result), Some(result))
        else
          match analyze(result)
          case Raised(message) => SwarmCreation(Raised(message), Some(result))
          case Ok(analysis) => SwarmCreation(Ok(JDict(result.fields["ai_analysis" := analysis])), Some(result))
  }

  /** What `create_wallet` returns can be tracked by the agent's wallet list. */
  lemma {:induction false} CreationTrackable(apiKey: string, api: Option<WalletUtils.Request> -> WalletUtils.Reply, now: string, walletType: string, signerAddress: string)
    ensures Registry.Trackable(Creation(apiKey, api, now)(walletType, signerAddress))
  {
    WalletUtils.SuccessCarriesWalletData(walletType, signerAddress, api(WalletUtils.SentRequest(apiKey, walletType, signerAddress)), now);
  }

  /**
   * With the agent's `create_wallet`, a returned result is a dict that
   * carries an analysis exactly when the creation succeeded.
   */
  lemma {:induction false} AnalysisMarksSuccess(apiKey: string, api: Option<WalletUtils.Request> -> WalletUtils.Reply, now: string, walletType: string, signerAddress: string,
                             enhance: (string, string) -> Py<map<string, string>>, analyze: Json -> Py<Json>)
    ensures var c := EnhancedCreate(walletType, signerAddress, Creation(apiKey, api, now), enhance, analyze);
      c.result.Ok? ==>
        c.created.Some? && c.result.value.JDict? && ("ai_analysis" in c.result.value.fields <==> Registry.Succeeded(c.created.value))
  {
    var c := EnhancedCreate(walletType, signerAddress, Creation(apiKey, api, now), enhance, analyze);
    if c.result.Ok? {
      var e := enhance(walletType, signerAddress).value;
      var sent := WalletUtils.SentRequest(apiKey, e["wallet_type"], e["signer_address"]);
      assert c.created.value == WalletUtils.CreationResult(e["wallet_type"], e["signer_address"], api(sent), now);
    }
  }

  class SwarmAIAgent {
    var apiKey: string
    var openaiKey: string
    var wallets: seq<Json>
    /** Every result `create_wallet` has returned to this agent, in order. */
    ghost var results: seq<Json>

    /** The wallet list is the outcome of the creations so far. */
    ghost predicate Valid()
      reads this
    {
      Registry.AllTrackable(results) && wallets == Registry.Tracked(results)
    }

    /** The field initialisation of `__init__`, once both keys are known to be set. */
    constructor (apiKey: string, openaiKey: string)
      ensures Valid()
      ensures this.apiKey == apiKey && this.openaiKey == openaiKey && wallets == [] && results == []
    {
      this.apiKey := apiKey;
      this.openaiKey := openaiKey;
      wallets := [];
      results := [];
    }

    /**
     * `SwarmAIAgent(api_key, openai_key)` over the environment `env`: each
     * key is the argument if truthy, else its environment variable, and
     * both must be set.
     */
    static method Init(apiKey: Option<string>, openaiKey: Option<string>, env: map<string, string>)
      returns (r: Py<SwarmAIAgent>)
      ensures r.Ok? <==>
        (IsSet(apiKey) || IsSet(GetEnv(env, "CROSSMINT_API_KEY"))) && (IsSet(openaiKey) || IsSet(GetEnv(env, "OPENAI_API_KEY")))
      ensures r.Raised? ==> r.message == NoKeysMessage()
      ensures r.Ok? ==>
        && fresh(r.value) && r.value.Valid() && r.value.wallets == []
        && Some(r.value.apiKey) == Or(apiKey, GetEnv(env, "CROSSMINT_API_KEY"))
        && Some(r.value.openaiKey) == Or(openaiKey, GetEnv(env, "OPENAI_API_KEY"))
    {
      var key := Or(apiKey, GetEnv(env, "CROSSMINT_API_KEY"));
      var openai := Or(openaiKey, GetEnv(env, "OPENAI_API_KEY"));
      if !IsSet(key) || !IsSet(openai) {
        return Raised(NoKeysMessage());
      }
      var agent := new SwarmAIAgent(key.value, openai.value);
      return Ok(agent);
    }

    /**
     * `create_new_wallet(wallet_type, signer_address)`: the wallet data of
     * a successful creation is tracked before the analysis is asked for,
     * so it stays tracked when the analysis raises.
     */
    method CreateNewWallet(walletType: string, signerAddress: string,
                           enhance: (string, string) -> Py<map<string, string>>, analyze: Json -> Py<Json>,
                           api: Option<WalletUtils.Request> -> WalletUtils.Reply, now: string)
      returns (r: Py<Json>)
      requires Valid()
      modifies this
      ensures Valid()
      ensures var c := EnhancedCreate(walletType, signerAddress, Creation(apiKey, api, now), enhance, analyze);
        && r == c.result
        && results == old(results) + (if c.created.Some? then [c.created.value] else [])
        && wallets == old(wallets) + (if c.created.Some? then Registry.Appended(c.created.value) else [])
      ensures apiKey == old(apiKey) && openaiKey == old(openaiKey)
    {
      var e := enhance(walletType, signerAddress);
      if e.Raised? {
        return Raised(e.message);
      }
      var request := e.value;
      if "wallet_type" !in request {
        return Raised(KeyErrorText("wallet_type"));
      }
      if "signer_address" !in request {
        return Raised(KeyErrorText("signer_address"));
      }
      var sent := WalletUtils.SentRequest(apiKey, request["wallet_type"], request["signer_address"]);
      var result := WalletUtils.CreationResult(request["wallet_type"], request["signer_address"], api(sent), now);
      CreationTrackable(apiKey, api, now, request["wallet_type"], request["signer_address"]);
      Track(result);
      if Registry.Succeeded(result) {
        var analysis := analyze(result);
        if analysis.Raised? {
          return Raised(analysis.message);
        }
        result := JDict(result.fields["ai_analysis" := analysis.value]);
      }
      return Ok(result);
    }

    /** `if result.get("status") == "success"`: the wallet data of a successful result joins the wallet list. */
    method Track(result: Json)
      requires Valid() && result.JDict? && Registry.Trackable(result)
      modifies this
      ensures Valid()
      ensures results == old(results) + [result]
      ensures wallets == old(wallets) + Registry.Appended(result)
      ensures apiKey == old(apiKey) && openaiKey == old(openaiKey)
    {
      Registry.TrackedAppend(results, result);
      if Registry.Succeeded(result) {
        wallets := wallets + [result.fields["wallet_data"]];
      }
      results := results + [result];
    }
  }
}
