/**
 * Wallet creation against the wallet API (`create_wallet`): validate the
 * wallet type, shape the request, send it, and normalise what comes back
 * into a result dict. The reply to the request is an input.
 */
module WalletUtils {
  import opened PyValue

  function EvmSmartWallet(): string { "evm-smart-wallet" }
  function SolanaCustodialWallet(): string { "solana-custodial-wallet" }
  function ValidWalletTypes(): seq<string> { [EvmSmartWallet(), SolanaCustodialWallet()] }

  /** The f-string of the validation error, with the list printed as Python prints it. */
  function InvalidTypeMessage(): string { "Invalid wallet type. Must be one of: " + "['evm-smart-wallet', " + "'solana-custodial-wallet']" }
  function Endpoint(): string { "{hostname_here}/api/2024-06-09/wallets" }

  /** The body of an HTTP response, as `response.json()` sees it. */
  datatype Body = Decoded(json: Json) | Undecodable(decodeError: string)

  /**
   * What the HTTP library gives back for one POST: either the transport
   * failed, or a response arrived with a status code and a body.
   * `statusError` is the text of the error `raise_for_status` raises for it.
   */
  datatype Reply =
    | TransportFailure(message: string)
    | HttpResponse(statusCode: int, body: Body, statusError: string)

  /** The request `create_wallet` sends: endpoint, JSON payload and headers. */
  datatype Request = Request(endpoint: string, payload: Json, headers: map<string, string>)

  /** What one `create_wallet` call does: the request it sent, if any, and the dict it returned. */
  datatype Created = Created(sent: Option<Request>, result: Json)

  /** `part` occurs in `s` starting at position `i`. */
  predicate MatchesAt(s: string, part: string, i: int) {
    0 <= i && i + |part| <= |s| && s[i..i + |part|] == part
  }

  /** Python's `part in s` on strings. */
  predicate Contains(s: string, part: string) {
    exists i | 0 <= i <= |s| - |part| :: MatchesAt(s, part, i)
  }

  /** A string that contains `part` contains every character of `part`. */
  lemma {:induction false} ContainsHasChars(s: string, part: string, k: nat)
    requires Contains(s, part) && k < |part|
    ensures part[k] in s
  {
    var i :| 0 <= i <= |s| - |part| && MatchesAt(s, part, i);
    assert s[i + k] == s[i..i + |part|][k];
  }

  /** The signer type chosen for a wallet type, by the substring test of the source. */
  function SignerType(walletType: string): string {
    if Contains(walletType, "evm") then "evm-keypair" else "solana-keypair"
  }

  /** Each valid wallet type gets the keypair type of its own chain family. */
  lemma SignerTypeOfValidTypes()
    ensures SignerType(EvmSmartWallet()) == "evm-keypair"
    ensures SignerType(SolanaCustodialWallet()) == "solana-keypair"
  {
    assert MatchesAt(EvmSmartWallet(), "evm", 0);
    if Contains(SolanaCustodialWallet(), "evm") {
      ContainsHasChars(SolanaCustodialWallet(), "evm", 1);
      assert false;
    }
  }

  /** The JSON body of the creation request. */
  function Payload(walletType: string, signerAddress: string): (p: Json)
    ensures At(p, ["type"]) == Some(JStr(walletType))
    ensures At(p, ["config", "signer", "address"]) == Some(JStr(signerAddress))
    ensures At(p, ["config", "signer", "type"]) == Some(JStr(SignerType(walletType)))
  {
    assert ["config", "signer", "address"][1..] == ["signer", "address"];
    assert ["signer", "address"][1..] == ["address"];
    assert ["config", "signer", "type"][1..] == ["signer", "type"];
    assert ["signer", "type"][1..] == ["type"];
    assert ["address"][1..] == [] && ["type"][1..] == [];
    JDict(map[
      "type" := JStr(walletType),
      "config" := JDict(map[
        "signer" := JDict(map[
          "type" := JStr(SignerType(walletType)),
          "address" := JStr(signerAddress)])])])
  }

  function Headers(apiKey: string): map<string, string> {
    map["x-api-key" := apiKey, "Content-Type" := "application/json"]
  }

  /** `raise_for_status` raises for client (4xx) and server (5xx) errors only. */
  predicate RaisesForStatus(statusCode: int) {
    400 <= statusCode < 600
  }

  /** True when the reply passes `raise_for_status` and its body decodes as JSON. */
  predicate Accepted(reply: Reply) {
    reply.HttpResponse? && !RaisesForStatus(reply.statusCode) && reply.body.Decoded?
  }

  /** `str(e)` of the request exception a rejected reply raises. */
  function FailureText(reply: Reply): string
    requires !Accepted(reply)
  {
    match reply
    case TransportFailure(message) => message
    case HttpResponse(code, body, statusError) =>
      if RaisesForStatus(code) then statusError else body.decodeError
  }

  /** The result dict of a request whose reply came back (the `try` block and its handler). */
  function Normalise(walletType: string, signerAddress: string, reply: Reply, now: string): (r: Json)
    ensures r.JDict? && "status" in r.fields && "timestamp" in r.fields && r.fields["timestamp"] == JStr(now)
    ensures r.fields["status"] == JStr("success") <==> Accepted(reply)
    ensures Accepted(reply) ==>
      && r.fields.Keys == {"status", "wallet_data", "wallet_type", "timestamp", "signer_address"}
      && r.fields["wallet_data"] == reply.body.json
      && r.fields["wallet_type"] == JStr(walletType)
      && r.fields["signer_address"] == JStr(signerAddress)
    ensures !Accepted(reply) ==>
      && r.fields.Keys == {"status", "error", "timestamp"}
      && r.fields["status"] == JStr("error")
      && r.fields["error"] == JStr(FailureText(reply))
  {
    if Accepted(reply) then
      JDict(map[
        "status" := JStr("success"),
        "wallet_data" := reply.body.json,
        "wallet_type" := JStr(walletType),
        "timestamp" := JStr(now),
        "signer_address" := JStr(signerAddress)])
    else
      JDict(map[
        "status" := JStr("error"),
        "error" := JStr(FailureText(reply)),
        "timestamp" := JStr(now)])
  }

  /**
   * The request `create_wallet(api_key, wallet_type, signer_address)`
   * sends, if any: none for an invalid wallet type.
   */
  function SentRequest(apiKey: string, walletType: string, signerAddress: string): (q: Option<Request>)
    ensures q.None? <==> walletType !in ValidWalletTypes()
    ensures q.Some? ==>
      var req := q.value;
      && req.endpoint == Endpoint()
      && At(req.payload, ["type"]) == Some(JStr(walletType))
      && At(req.payload, ["config", "signer", "address"]) == Some(JStr(signerAddress))
      && At(req.payload, ["config", "signer", "type"]) == Some(JStr(SignerType(walletType)))
      && req.headers.Keys == {"x-api-key", "Content-Type"}
      && req.headers["x-api-key"] == apiKey
      && req.headers["Content-Type"] == "application/json"
  {
    if walletType !in ValidWalletTypes() then None
    else Some(Request(Endpoint(), Payload(walletType, signerAddress), Headers(apiKey)))
  }

  /**
   * The dict `create_wallet(api_key, wallet_type, signer_address)` returns.
   * `reply` is what the backend answers if the request is sent; `now` is
   * the ISO timestamp.
   */
  function CreationResult(walletType: string, signerAddress: string, reply: Reply, now: string): (r: Json)
    // an invalid type yields an error without a status
    ensures walletType !in ValidWalletTypes() ==>
      r.JDict? && r.fields.Keys == {"error", "timestamp"} &&
      r.fields["error"] == JStr(InvalidTypeMessage()) && r.fields["timestamp"] == JStr(now)
    // a sent request always yields status "success" or "error", success exactly when accepted
    ensures walletType in ValidWalletTypes() ==>
      r.JDict? && "status" in r.fields && "timestamp" in r.fields &&
      r.fields["timestamp"] == JStr(now) &&
      (r.fields["status"] == JStr("success") || r.fields["status"] == JStr("error")) &&
      (r.fields["status"] == JStr("success") <==> Accepted(reply))
    ensures walletType in ValidWalletTypes() && Accepted(reply) ==>
      r.fields.Keys == {"status", "wallet_data", "wallet_type", "timestamp", "signer_address"} &&
      r.fields["wallet_data"] == reply.body.json &&
      r.fields["wallet_type"] == JStr(walletType) &&
      r.fields["signer_address"] == JStr(signerAddress)
    ensures walletType in ValidWalletTypes() && !Accepted(reply) ==>
      r.fields.Keys == {"status", "error", "timestamp"} &&
      r.fields["error"] == JStr(FailureText(reply))
  {
    if walletType !in ValidWalletTypes() then
      JDict(map["error" := JStr(InvalidTypeMessage()), "timestamp" := JStr(now)])
    else
      Normalise(walletType, signerAddress, reply, now)
  }

  /**
   * `create_wallet(api_key, wallet_type, signer_address)`: the request it
   * sends and the dict it returns.
   */
  function CreateWallet(apiKey: string, walletType: string, signerAddress: string, reply: Reply, now: string): (c: Created)
    // a result with a status exists exactly when a request was sent
    ensures c.sent.None? <==> walletType !in ValidWalletTypes()
    ensures c.result.JDict? && ("status" in c.result.fields <==> c.sent.Some?)
  {
    Created(SentRequest(apiKey, walletType, signerAddress), CreationResult(walletType, signerAddress, reply, now))
  }

  /** A result `create_wallet` can return never reports success without its `wallet_data`. */
  lemma {:induction false} SuccessCarriesWalletData(walletType: string, signerAddress: string, reply: Reply, now: string)
    ensures var r := CreationResult(walletType, signerAddress, reply, now);
      r.JDict? && ("status" in r.fields && r.fields["status"] == JStr("success") ==> "wallet_data" in r.fields)
  {
  }
}

/** The tool schema offered to the chat model (`tools_schema`). */
module ToolsSchema {
  import WalletUtils

  /** The `enum` of the `wallet_type` parameter of the `create_new_wallet` tool. */
  function WalletTypeEnum(): seq<string> { ["evm-smart-wallet", "solana-custodial-wallet"] }

  /** The schema offers the model exactly the wallet types `create_wallet` accepts. */
  lemma EnumMatchesValidTypes()
    ensures WalletTypeEnum() == WalletUtils.ValidWalletTypes()
  {
  }
}
