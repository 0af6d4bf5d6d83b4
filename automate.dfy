/**
 * The automated smart-wallet signing flow (`automate_wallet_flow`): create
 * an EVM smart wallet, create a transaction for it on base-sepolia, sign the
 * transaction's user-operation hash, submit the signature, and re-fetch the
 * transaction. The first failing stage ends the run, and every exception
 * becomes the result `{"status": "error", "message": str(e)}`.
 *
 * The library functions behind stages 2 to 5 are parameters; the method
 * records every stage it invokes, with its arguments, in a trace.
 */
module AutomateFlow {
  import opened PyValue
  import WalletUtils
  import Registry

  function Chain(): string { "base-sepolia" }
  function SignerIdPrefix(): string { "evm-keypair-" }
  function CompletedMessage(): string { "Wallet flow completed successfully" }

  /** The environment values the flow reads: API key, signer address and signer private key. */
  datatype Config = Config(apiKey: string, signerAddress: string, privateKey: string)

  /**
   * The library functions the flow calls whose bodies are not part of this
   * model: `create_transaction`, `generate_signature` (an abstract signing
   * function of key and hash), `submit_transaction_signature` and
   * `get_transaction`. Each may return a value or raise.
   */
  datatype Library = Library(
    createTransaction: (string, Json, string) -> Py<Json>,
    generateSignature: (string, Json) -> Py<string>,
    submitTransactionSignature: (string, Json, Json, string, string) -> Py<Json>,
    getTransaction: (string, Json, Json) -> Py<Json>)

  /** One invoked stage and the arguments it was invoked with. */
  datatype Call =
    | CreateWalletCall(apiKey: string, walletType: string, signerAddress: string)
    | CreateTransactionCall(apiKey: string, walletAddress: Json, chain: string)
    | GenerateSignatureCall(privateKey: string, userOpHash: Json)
    | SubmitSignatureCall(apiKey: string, walletAddress: Json, transactionId: Json, signerId: string, signature: string)
    | GetTransactionCall(apiKey: string, walletAddress: Json, transactionId: Json)

  /** The position of a stage in the pipeline. */
  function Stage(c: Call): nat {
    match c
    case CreateWalletCall(_, _, _) => 0
    case CreateTransactionCall(_, _, _) => 1
    case GenerateSignatureCall(_, _) => 2
    case SubmitSignatureCall(_, _, _, _, _) => 3
    case GetTransactionCall(_, _, _) => 4
  }

  /** The stages of a run are a non-empty prefix of the pipeline, each invoked once, in order. */
  ghost predicate InStageOrder(trace: seq<Call>) {
    1 <= |trace| <= 5 && forall i :: 0 <= i < |trace| ==> Stage(trace[i]) == i
  }

  /** A trace whose k-th call is of the k-th stage is in stage order. */
  lemma {:induction false} StagesInOrder(trace: seq<Call>)
    requires 1 <= |trace| <= 5 && trace[0].CreateWalletCall?
    requires |trace| > 1 ==> trace[1].CreateTransactionCall?
    requires |trace| > 2 ==> trace[2].GenerateSignatureCall?
    requires |trace| > 3 ==> trace[3].SubmitSignatureCall?
    requires |trace| > 4 ==> trace[4].GetTransactionCall?
    ensures InStageOrder(trace)
  {
  }

  /** What a library stage returned for the arguments it was called with. */
  function Answer(lib: Library, c: Call): Py<Json>
    requires !c.CreateWalletCall? && !c.GenerateSignatureCall?
  {
    match c
    case CreateTransactionCall(k, w, chain) => lib.createTransaction(k, w, chain)
    case SubmitSignatureCall(k, w, t, s, sig) => lib.submitTransactionSignature(k, w, t, s, sig)
    case GetTransactionCall(k, w, t) => lib.getTransaction(k, w, t)
  }

  /** True when a stage's answer is a dict reporting `"status": "success"`. */
  predicate AnswerSucceeded(a: Py<Json>) {
    a.Ok? && Registry.Succeeded(a.value)
  }

  function ErrorResult(message: string): (r: Json)
    ensures ReportsError(r) && !ReportsSuccess(r)
  {
    StatusMessage("error", message)
  }

  function SuccessResult(walletAddress: Json, transactionId: Json, userOpHash: Json, signature: string, finalStatus: Json): (r: Json)
    ensures ReportsSuccess(r)
  {
    JDict(map[
      "status" := JStr("success"),
      "message" := JStr(CompletedMessage()),
      "data" := JDict(map[
        "wallet_address" := walletAddress,
        "transaction_id" := transactionId,
        "user_op_hash" := userOpHash,
        "signature" := JStr(signature),
        "final_status" := finalStatus])])
  }

  /** The flow's result is either `{"status": "error", "message": <text>}` or its success record. */
  predicate ReportsError(result: Json) {
    result.JDict? && result.fields.Keys == {"status", "message"} &&
    result.fields["status"] == JStr("error") && result.fields["message"].JStr?
  }

  predicate ReportsSuccess(result: Json) {
    result.JDict? && result.fields.Keys == {"status", "message", "data"} &&
    result.fields["status"] == JStr("success") && result.fields["message"] == JStr(CompletedMessage())
  }

  /**
   * `if response.get("status") != "success": raise Exception(failure)`: the
   * message of the exception raised, if any.
   */
  function StatusCheck(response: Json, failure: string): (r: Option<string>)
    ensures r.None? <==> Registry.Succeeded(response)
    ensures response.JDict? && !Registry.Succeeded(response) ==> r == Some(failure)
  {
    match Get(response, "status", JNull)
    case Raised(m) => Some(m)
    case Ok(status) => if status == JStr("success") then None else Some(failure)
  }

  function SigningStatusPath(): seq<string> { ["transaction_data", "signingData", "status"] }

  /**
   * The submission's first signing-status record reports `"completed"`:
   * the status list is there and is a list whose first element is a dict
   * with that status.
   */
  ghost predicate RecordedCompleted(submission: Json) {
    && FirstRecordIsDict(submission)
    && var records := At(submission, SigningStatusPath()).value;
    && "status" in records.items[0].fields
    && records.items[0].fields["status"] == JStr("completed")
  }

  /** The submission's signing-status list is there, reached through dicts, and starts with a dict. */
  ghost predicate FirstRecordIsDict(submission: Json) {
    && ChainOnDicts(submission, SigningStatusPath())
    && At(submission, SigningStatusPath()).Some?
    && var records := At(submission, SigningStatusPath()).value;
    && records.JList? && records.items != [] && records.items[0].JDict?
  }

  function AddressPath(): seq<string> { ["wallet_data", "address"] }
  function SignerPath(): seq<string> { ["wallet_data", "config", "signer", "address"] }
  function TransactionIdPath(): seq<string> { ["transaction_data", "id"] }
  function UserOpHashPath(): seq<string> { ["transaction_data", "data", "userOperationHash"] }

  /** What stage 1 reads back from the wallet response. */
  datatype WalletInfo = WalletInfo(address: Json, signerAddress: Json)

  /** What stage 2 reads from the transaction response. */
  datatype TransactionInfo = TransactionInfo(id: Json, userOpHash: Json)

  /**
   * The wallet response of stage 1: `create_wallet` accepts the EVM smart
   * wallet type, so its result is the normalised reply to the request.
   */
  function WalletResponse(cfg: Config, walletReply: WalletUtils.Reply, now: string): Json {
    WalletUtils.Normalise(WalletUtils.EvmSmartWallet(), cfg.signerAddress, walletReply, now)
  }

  /** Stage 1's wallet response is what `create_wallet` returns for the EVM smart wallet type. */
  lemma {:induction false} WalletResponseIsCreated(cfg: Config, walletReply: WalletUtils.Reply, now: string)
    ensures WalletResponse(cfg, walletReply, now) ==
      WalletUtils.CreateWallet(cfg.apiKey, WalletUtils.EvmSmartWallet(), cfg.signerAddress, walletReply, now).result
  {
  }

  /**
   * What stage 1 reads after `create_wallet`: the status check first, then
   * the address chain and the echoed-signer chain, each raising where a
   * `.get` meets a value that is not a dict.
   */
  ghost predicate WalletRead(walletResponse: Json, r: Py<WalletInfo>) {
    && (!Registry.Succeeded(walletResponse) ==> r == Raised(StatusCheck(walletResponse, "Wallet creation failed").value))
    && (Registry.Succeeded(walletResponse) && GetChain(walletResponse, AddressPath(), JNull).Raised? ==>
          r == Raised(GetChain(walletResponse, AddressPath(), JNull).message))
    && (Registry.Succeeded(walletResponse) && GetChain(walletResponse, AddressPath(), JNull).Ok? &&
        GetChain(walletResponse, SignerPath(), JNull).Raised? ==>
          r == Raised(GetChain(walletResponse, SignerPath(), JNull).message))
    && (r.Ok? <==>
          Registry.Succeeded(walletResponse) && ChainOnDicts(walletResponse, AddressPath()) && ChainOnDicts(walletResponse, SignerPath()))
    && (r.Ok? ==>
          r.value == WalletInfo(At(walletResponse, AddressPath()).GetOr(JNull), At(walletResponse, SignerPath()).GetOr(JNull)))
  }

  /**
   * Check the wallet response and read the wallet address and the signer
   * address the backend echoes back (the code after `create_wallet`).
   */
  method ReadWallet(walletResponse: Json) returns (r: Py<WalletInfo>)
    ensures WalletRead(walletResponse, r)
  {
    var failure := StatusCheck(walletResponse, "Wallet creation failed");
    if failure.Some? {
      return Raised(failure.value);
    }
    var address := GetChain(walletResponse, AddressPath(), JNull);
    GetChainMeaning(walletResponse, AddressPath(), JNull);
    if address.Raised? {
      return Raised(address.message);
    }
    var signer := GetChain(walletResponse, SignerPath(), JNull);
    GetChainMeaning(walletResponse, SignerPath(), JNull);
    if signer.Raised? {
      return Raised(signer.message);
    }
    return Ok(WalletInfo(address.value, signer.value));
  }

  /**
   * What stage 2 reads from the transaction response: an exception passes
   * through, then the status check, then the id chain and the hash chain.
   */
  ghost predicate TransactionRead(response: Py<Json>, r: Py<TransactionInfo>) {
    && (response.Raised? ==> r == Raised(response.message))
    && (response.Ok? && !Registry.Succeeded(response.value) ==>
          r == Raised(StatusCheck(response.value, "Transaction creation failed").value))
    && (AnswerSucceeded(response) && GetChain(response.value, TransactionIdPath(), JNull).Raised? ==>
          r == Raised(GetChain(response.value, TransactionIdPath(), JNull).message))
    && (AnswerSucceeded(response) && GetChain(response.value, TransactionIdPath(), JNull).Ok? &&
        GetChain(response.value, UserOpHashPath(), JNull).Raised? ==>
          r == Raised(GetChain(response.value, UserOpHashPath(), JNull).message))
    && (r.Ok? <==>
          AnswerSucceeded(response) && ChainOnDicts(response.value, TransactionIdPath()) && ChainOnDicts(response.value, UserOpHashPath()))
    && (r.Ok? ==>
          r.value == TransactionInfo(At(response.value, TransactionIdPath()).GetOr(JNull), At(response.value, UserOpHashPath()).GetOr(JNull)))
  }

  /** Check the transaction response and read the transaction id and the hash to sign. */
  method ReadTransaction(response: Py<Json>) returns (r: Py<TransactionInfo>)
    ensures TransactionRead(response, r)
  {
    if response.Raised? {
      return Raised(response.message);
    }
    var failure := StatusCheck(response.value, "Transaction creation failed");
    if failure.Some? {
      return Raised(failure.value);
    }
    var id := GetChain(response.value, TransactionIdPath(), JNull);
    GetChainMeaning(response.value, TransactionIdPath(), JNull);
    if id.Raised? {
      return Raised(id.message);
    }
    var hash := GetChain(response.value, UserOpHashPath(), JNull);
    GetChainMeaning(response.value, UserOpHashPath(), JNull);
    if hash.Raised? {
      return Raised(hash.message);
    }
    return Ok(TransactionInfo(id.value, hash.value));
  }

  /**
   * What stage 4 checks of the submission: it must report success and its
   * first signing-status record must report `"completed"`. Taking the first
   * record raises as `[0]` does (`IndexError` on an empty list, `TypeError`
   * or `KeyError` on a value that is not a list), and reading its status
   * raises the `AttributeError` of a record that is not a dict.
   */
  ghost predicate SubmissionChecked(response: Py<Json>, failure: Option<string>) {
    && (response.Raised? ==> failure == Some(response.message))
    && (response.Ok? && !Registry.Succeeded(response.value) ==>
          failure == StatusCheck(response.value, "Signature submission failed"))
    && (failure.None? <==> AnswerSucceeded(response) && RecordedCompleted(response.value))
    && (AnswerSucceeded(response) && GetChain(response.value, SigningStatusPath(), JList([])).Raised? ==>
          failure == Some(GetChain(response.value, SigningStatusPath(), JList([])).message))
    && ((AnswerSucceeded(response) && ChainOnDicts(response.value, SigningStatusPath()) &&
         At(response.value, SigningStatusPath()).GetOr(JList([])) == JList([])) ==>
          failure == Some("list index out of range"))
    && (AnswerSucceeded(response) && GetChain(response.value, SigningStatusPath(), JList([])).Ok? ==>
          var first := First(GetChain(response.value, SigningStatusPath(), JList([])).value);
          && (first.Raised? ==> failure == Some(first.message))
          && (first.Ok? && Get(first.value, "status", JNull).Raised? ==> failure == Some(Get(first.value, "status", JNull).message)))
    && (AnswerSucceeded(response) && FirstRecordIsDict(response.value) && !RecordedCompleted(response.value) ==>
          failure == Some("Signature was not properly recorded"))
  }

  /** Check the submission. The message of the exception raised, if any. */
  method CheckSubmission(response: Py<Json>) returns (failure: Option<string>)
    ensures SubmissionChecked(response, failure)
  {
    if response.Raised? {
      return Some(response.message);
    }
    failure := StatusCheck(response.value, "Signature submission failed");
    if failure.Some? {
      return;
    }
    var records := GetChain(response.value, SigningStatusPath(), JList([]));
    GetChainMeaning(response.value, SigningStatusPath(), JList([]));
    if records.Raised? {
      return Some(records.message);
    }
    var signingStatus := First(records.value);
    if signingStatus.Raised? {
      return Some(signingStatus.message);
    }
    var recorded := Get(signingStatus.value, "status", JNull);
    if recorded.Raised? {
      return Some(recorded.message);
    }
    if recorded.value != JStr("completed") {
      return Some("Signature was not properly recorded");
    }
    return None;
  }

  /** What stage 5 checks of the re-fetched transaction: an exception passes through, then the status check. */
  ghost predicate VerificationChecked(response: Py<Json>, failure: Option<string>) {
    && (response.Raised? ==> failure == Some(response.message))
    && (response.Ok? ==> failure == StatusCheck(response.value, "Transaction verification failed"))
    && (failure.None? <==> AnswerSucceeded(response))
  }

  /** Check the re-fetched transaction. The message of the exception raised, if any. */
  method CheckVerification(response: Py<Json>) returns (failure: Option<string>)
    ensures VerificationChecked(response, failure)
  {
    if response.Raised? {
      return Some(response.message);
    }
    failure := StatusCheck(response.value, "Transaction verification failed");
  }

  /**
   * What `automate_wallet_flow()` promises of its result and of the stages
   * it invoked (`trace`): a stage that passes leads on to the next, the
   * first failing stage ends the run with its exception's message, and
   * each stage is called with what the stages before it read.
   */
  ghost predicate FlowSpec(cfg: Config, walletReply: WalletUtils.Reply, now: string, lib: Library, pyStr: Json -> string,
                           result: Json, trace: seq<Call>)
  {
    var wr := WalletResponse(cfg, walletReply, now);
    && (ReportsError(result) || ReportsSuccess(result))
    && InStageOrder(trace)
    // stage 1: an EVM smart wallet for the configured signer
    && trace[0] == CreateWalletCall(cfg.apiKey, WalletUtils.EvmSmartWallet(), cfg.signerAddress)
    && (!Registry.Succeeded(wr) ==> |trace| == 1 && result == ErrorResult("Wallet creation failed"))
    // reading the wallet address and the echoed signer raises where a `.get` meets a value that is not a dict
    && (Registry.Succeeded(wr) && GetChain(wr, AddressPath(), JNull).Raised? ==>
          |trace| == 1 && result == ErrorResult(GetChain(wr, AddressPath(), JNull).message))
    && (Registry.Succeeded(wr) && GetChain(wr, AddressPath(), JNull).Ok? && GetChain(wr, SignerPath(), JNull).Raised? ==>
          |trace| == 1 && result == ErrorResult(GetChain(wr, SignerPath(), JNull).message))
    // stage 2: a transaction for the created wallet on base-sepolia, once stage 1 passed
    && (Registry.Succeeded(wr) && ChainOnDicts(wr, AddressPath()) && ChainOnDicts(wr, SignerPath()) ==> |trace| >= 2)
    && (|trace| >= 2 ==>
          && Registry.Succeeded(wr) && ChainOnDicts(wr, AddressPath()) && ChainOnDicts(wr, SignerPath())
          && trace[1] == CreateTransactionCall(cfg.apiKey, At(wr, AddressPath()).GetOr(JNull), Chain()))
    && (|trace| >= 2 && Answer(lib, trace[1]).Raised? ==>
          |trace| == 2 && result == ErrorResult(Answer(lib, trace[1]).message))
    && (|trace| >= 2 && Answer(lib, trace[1]).Ok? && !AnswerSucceeded(Answer(lib, trace[1])) ==>
          |trace| == 2 && result == ErrorResult(StatusCheck(Answer(lib, trace[1]).value, "Transaction creation failed").value))
    && (|trace| >= 2 && AnswerSucceeded(Answer(lib, trace[1])) &&
        GetChain(Answer(lib, trace[1]).value, TransactionIdPath(), JNull).Raised? ==>
          |trace| == 2 && result == ErrorResult(GetChain(Answer(lib, trace[1]).value, TransactionIdPath(), JNull).message))
    && (|trace| >= 2 && AnswerSucceeded(Answer(lib, trace[1])) &&
        GetChain(Answer(lib, trace[1]).value, TransactionIdPath(), JNull).Ok? &&
        GetChain(Answer(lib, trace[1]).value, UserOpHashPath(), JNull).Raised? ==>
          |trace| == 2 && result == ErrorResult(GetChain(Answer(lib, trace[1]).value, UserOpHashPath(), JNull).message))
    // stage 3: a signature over the transaction's user-operation hash, once stage 2 passed
    && ((|trace| >= 2 && AnswerSucceeded(Answer(lib, trace[1])) &&
         ChainOnDicts(Answer(lib, trace[1]).value, TransactionIdPath()) &&
         ChainOnDicts(Answer(lib, trace[1]).value, UserOpHashPath())) ==> |trace| >= 3)
    && (|trace| >= 3 ==>
          && AnswerSucceeded(Answer(lib, trace[1]))
          && ChainOnDicts(Answer(lib, trace[1]).value, TransactionIdPath())
          && ChainOnDicts(Answer(lib, trace[1]).value, UserOpHashPath())
          && trace[2] == GenerateSignatureCall(cfg.privateKey, At(Answer(lib, trace[1]).value, UserOpHashPath()).GetOr(JNull)))
    && (|trace| >= 3 && lib.generateSignature(trace[2].privateKey, trace[2].userOpHash).Raised? ==>
          |trace| == 3 && result == ErrorResult(lib.generateSignature(trace[2].privateKey, trace[2].userOpHash).message))
    // stage 4: that signature, for that transaction, under the signer read back from the wallet
    && (|trace| >= 3 && lib.generateSignature(trace[2].privateKey, trace[2].userOpHash).Ok? ==> |trace| >= 4)
    && (|trace| >= 4 ==>
          && lib.generateSignature(trace[2].privateKey, trace[2].userOpHash).Ok?
          && trace[3] == SubmitSignatureCall(
               cfg.apiKey, trace[1].walletAddress,
               At(Answer(lib, trace[1]).value, TransactionIdPath()).GetOr(JNull),
               SignerIdPrefix() + Format(At(wr, SignerPath()).GetOr(JNull), pyStr),
               lib.generateSignature(trace[2].privateKey, trace[2].userOpHash).value))
    && (|trace| >= 4 && Answer(lib, trace[3]).Raised? ==>
          |trace| == 4 && result == ErrorResult(Answer(lib, trace[3]).message))
    && (|trace| >= 4 && Answer(lib, trace[3]).Ok? && !AnswerSucceeded(Answer(lib, trace[3])) ==>
          |trace| == 4 && result == ErrorResult(StatusCheck(Answer(lib, trace[3]).value, "Signature submission failed").value))
    // a submission that reports success still fails without a completed signing record
    && (|trace| >= 4 && AnswerSucceeded(Answer(lib, trace[3])) &&
        GetChain(Answer(lib, trace[3]).value, SigningStatusPath(), JList([])).Raised? ==>
          |trace| == 4 && result == ErrorResult(GetChain(Answer(lib, trace[3]).value, SigningStatusPath(), JList([])).message))
    && ((|trace| >= 4 && AnswerSucceeded(Answer(lib, trace[3])) && ChainOnDicts(Answer(lib, trace[3]).value, SigningStatusPath()) &&
         At(Answer(lib, trace[3]).value, SigningStatusPath()).GetOr(JList([])) == JList([])) ==>
          |trace| == 4 && result == ErrorResult("list index out of range"))
    && (|trace| >= 4 && AnswerSucceeded(Answer(lib, trace[3])) &&
        GetChain(Answer(lib, trace[3]).value, SigningStatusPath(), JList([])).Ok? ==>
          var first := First(GetChain(Answer(lib, trace[3]).value, SigningStatusPath(), JList([])).value);
          && (first.Raised? ==> |trace| == 4 && result == ErrorResult(first.message))
          && (first.Ok? && Get(first.value, "status", JNull).Raised? ==>
                |trace| == 4 && result == ErrorResult(Get(first.value, "status", JNull).message)))
    && ((|trace| >= 4 && AnswerSucceeded(Answer(lib, trace[3])) && FirstRecordIsDict(Answer(lib, trace[3]).value) &&
         !RecordedCompleted(Answer(lib, trace[3]).value)) ==>
          |trace| == 4 && result == ErrorResult("Signature was not properly recorded"))
    // stage 5: re-fetch the same transaction of the same wallet, once stage 4 passed
    && (|trace| >= 4 && AnswerSucceeded(Answer(lib, trace[3])) && RecordedCompleted(Answer(lib, trace[3]).value) ==> |trace| == 5)
    && (|trace| == 5 ==>
          && AnswerSucceeded(Answer(lib, trace[3])) && RecordedCompleted(Answer(lib, trace[3]).value)
          && trace[4] == GetTransactionCall(cfg.apiKey, trace[1].walletAddress, trace[3].transactionId))
    && (|trace| == 5 && Answer(lib, trace[4]).Raised? ==>
          result == ErrorResult(Answer(lib, trace[4]).message))
    && (|trace| == 5 && Answer(lib, trace[4]).Ok? && !AnswerSucceeded(Answer(lib, trace[4])) ==>
          result == ErrorResult(StatusCheck(Answer(lib, trace[4]).value, "Transaction verification failed").value))
    // success exactly when all five stages ran and the re-fetch reports success
    && (ReportsSuccess(result) <==> |trace| == 5 && AnswerSucceeded(Answer(lib, trace[4])))
    && (ReportsSuccess(result) ==>
          result == SuccessResult(trace[1].walletAddress, trace[3].transactionId, trace[2].userOpHash,
                                  trace[3].signature, Answer(lib, trace[4]).value))
  }

  /** The five stage calls, each with the arguments the flow gives it. */
  function WalletCall(cfg: Config): Call {
    CreateWalletCall(cfg.apiKey, WalletUtils.EvmSmartWallet(), cfg.signerAddress)
  }

  function TransactionCall(cfg: Config, wallet: WalletInfo): Call {
    CreateTransactionCall(cfg.apiKey, wallet.address, Chain())
  }

  function SigningCall(cfg: Config, transaction: TransactionInfo): Call {
    GenerateSignatureCall(cfg.privateKey, transaction.userOpHash)
  }

  function SubmissionCall(cfg: Config, wallet: WalletInfo, transaction: TransactionInfo, signature: string, pyStr: Json -> string): Call {
    SubmitSignatureCall(cfg.apiKey, wallet.address, transaction.id, SignerIdPrefix() + Format(wallet.signerAddress, pyStr), signature)
  }

  function VerificationCall(cfg: Config, wallet: WalletInfo, transaction: TransactionInfo): Call {
    GetTransactionCall(cfg.apiKey, wallet.address, transaction.id)
  }

  /** A run whose wallet response fails its checks ends after stage 1 with that failure. */
  lemma {:induction false} WalletStageFails(cfg: Config, walletReply: WalletUtils.Reply, now: string, lib: Library, pyStr: Json -> string,
                                            wallet: Py<WalletInfo>)
    requires WalletRead(WalletResponse(cfg, walletReply, now), wallet) && wallet.Raised?
    ensures FlowSpec(cfg, walletReply, now, lib, pyStr, ErrorResult(wallet.message), [WalletCall(cfg)])
  {
    StagesInOrder([WalletCall(cfg)]);
  }

  /** A run whose transaction response fails its checks ends after stage 2 with that failure. */
  lemma {:induction false} TransactionStageFails(cfg: Config, walletReply: WalletUtils.Reply, now: string, lib: Library, pyStr: Json -> string,
                                                 wallet: WalletInfo, transaction: Py<TransactionInfo>)
    requires WalletRead(WalletResponse(cfg, walletReply, now), Ok(wallet))
    requires TransactionRead(Answer(lib, TransactionCall(cfg, wallet)), transaction) && transaction.Raised?
    ensures FlowSpec(cfg, walletReply, now, lib, pyStr, ErrorResult(transaction.message), [WalletCall(cfg), TransactionCall(cfg, wallet)])
  {
    StagesInOrder([WalletCall(cfg), TransactionCall(cfg, wallet)]);
  }

  /** A run whose signing raises ends after stage 3 with that exception. */
  lemma {:induction false} SigningStageFails(cfg: Config, walletReply: WalletUtils.Reply, now: string, lib: Library, pyStr: Json -> string,
                                             wallet: WalletInfo, transaction: TransactionInfo)
    requires WalletRead(WalletResponse(cfg, walletReply, now), Ok(wallet))
    requires TransactionRead(Answer(lib, TransactionCall(cfg, wallet)), Ok(transaction))
    requires lib.generateSignature(cfg.privateKey, transaction.userOpHash).Raised?
    ensures FlowSpec(cfg, walletReply, now, lib, pyStr, ErrorResult(lib.generateSignature(cfg.privateKey, transaction.userOpHash).message),
                     [WalletCall(cfg), TransactionCall(cfg, wallet), SigningCall(cfg, transaction)])
  {
    StagesInOrder([WalletCall(cfg), TransactionCall(cfg, wallet), SigningCall(cfg, transaction)]);
  }

  /** A run whose submission fails its checks ends after stage 4 with that failure. */
  lemma {:induction false} SubmissionStageFails(cfg: Config, walletReply: WalletUtils.Reply, now: string, lib: Library, pyStr: Json -> string,
                                                wallet: WalletInfo, transaction: TransactionInfo, signature: string, failure: Option<string>)
    requires WalletRead(WalletResponse(cfg, walletReply, now), Ok(wallet))
    requires TransactionRead(Answer(lib, TransactionCall(cfg, wallet)), Ok(transaction))
    requires lib.generateSignature(cfg.privateKey, transaction.userOpHash) == Ok(signature)
    requires SubmissionChecked(Answer(lib, SubmissionCall(cfg, wallet, transaction, signature, pyStr)), failure) && failure.Some?
    ensures FlowSpec(cfg, walletReply, now, lib, pyStr, ErrorResult(failure.value),
                     [WalletCall(cfg), TransactionCall(cfg, wallet), SigningCall(cfg, transaction),
                      SubmissionCall(cfg, wallet, transaction, signature, pyStr)])
  {
    StagesInOrder([WalletCall(cfg), TransactionCall(cfg, wallet), SigningCall(cfg, transaction),
                   SubmissionCall(cfg, wallet, transaction, signature, pyStr)]);
  }

  /** A run whose re-fetched transaction fails its check ends after stage 5 with that failure. */
  lemma {:induction false} VerificationStageFails(cfg: Config, walletReply: WalletUtils.Reply, now: string, lib: Library, pyStr: Json -> string,
                                                  wallet: WalletInfo, transaction: TransactionInfo, signature: string, failure: Option<string>)
    requires WalletRead(WalletResponse(cfg, walletReply, now), Ok(wallet))
    requires TransactionRead(Answer(lib, TransactionCall(cfg, wallet)), Ok(transaction))
    requires lib.generateSignature(cfg.privateKey, transaction.userOpHash) == Ok(signature)
    requires SubmissionChecked(Answer(lib, SubmissionCall(cfg, wallet, transaction, signature, pyStr)), None)
    requires VerificationChecked(Answer(lib, VerificationCall(cfg, wallet, transaction)), failure) && failure.Some?
    ensures FlowSpec(cfg, walletReply, now, lib, pyStr, ErrorResult(failure.value),
                     [WalletCall(cfg), TransactionCall(cfg, wallet), SigningCall(cfg, transaction),
                      SubmissionCall(cfg, wallet, transaction, signature, pyStr), VerificationCall(cfg, wallet, transaction)])
  {
    StagesInOrder([WalletCall(cfg), TransactionCall(cfg, wallet), SigningCall(cfg, transaction),
                   SubmissionCall(cfg, wallet, transaction, signature, pyStr), VerificationCall(cfg, wallet, transaction)]);
  }

  /** A run that passes every check returns the success record of what the stages read. */
  lemma {:induction false} FlowCompletes(cfg: Config, walletReply: WalletUtils.Reply, now: string, lib: Library, pyStr: Json -> string,
                                         wallet: WalletInfo, transaction: TransactionInfo, signature: string)
    requires WalletRead(WalletResponse(cfg, walletReply, now), Ok(wallet))
    requires TransactionRead(Answer(lib, TransactionCall(cfg, wallet)), Ok(transaction))
    requires lib.generateSignature(cfg.privateKey, transaction.userOpHash) == Ok(signature)
    requires SubmissionChecked(Answer(lib, SubmissionCall(cfg, wallet, transaction, signature, pyStr)), None)
    requires VerificationChecked(Answer(lib, VerificationCall(cfg, wallet, transaction)), None)
    ensures FlowSpec(cfg, walletReply, now, lib, pyStr,
                     SuccessResult(wallet.address, transaction.id, transaction.userOpHash, signature,
                                   Answer(lib, VerificationCall(cfg, wallet, transaction)).value),
                     [WalletCall(cfg), TransactionCall(cfg, wallet), SigningCall(cfg, transaction),
                      SubmissionCall(cfg, wallet, transaction, signature, pyStr), VerificationCall(cfg, wallet, transaction)])
  {
    StagesInOrder([WalletCall(cfg), TransactionCall(cfg, wallet), SigningCall(cfg, transaction),
                   SubmissionCall(cfg, wallet, transaction, signature, pyStr), VerificationCall(cfg, wallet, transaction)]);
  }

  /**
   * `FlowSpec` leaves nothing open: a single run, and a single result,
   * meets it for each input.
   */
  lemma {:induction false} FlowSpecDeterminate(cfg: Config, walletReply: WalletUtils.Reply, now: string, lib: Library, pyStr: Json -> string,
                                               result1: Json, trace1: seq<Call>, result2: Json, trace2: seq<Call>)
    requires FlowSpec(cfg, walletReply, now, lib, pyStr, result1, trace1)
    requires FlowSpec(cfg, walletReply, now, lib, pyStr, result2, trace2)
    ensures trace1 == trace2 && result1 == result2
  {
    TracesAgree(cfg, walletReply, now, lib, pyStr, result1, trace1, result2, trace2);
    ResultsAgree(cfg, walletReply, now, lib, pyStr, result1, result2, trace1);
  }

  /** Two runs that meet `FlowSpec` invoke the same stages with the same arguments. */
  lemma {:induction false} TracesAgree(cfg: Config, walletReply: WalletUtils.Reply, now: string, lib: Library, pyStr: Json -> string,
                                       result1: Json, trace1: seq<Call>, result2: Json, trace2: seq<Call>)
    requires FlowSpec(cfg, walletReply, now, lib, pyStr, result1, trace1)
    requires FlowSpec(cfg, walletReply, now, lib, pyStr, result2, trace2)
    ensures trace1 == trace2
  {
    NoShorter(cfg, walletReply, now, lib, pyStr, result1, trace1, result2, trace2);
    NoShorter(cfg, walletReply, now, lib, pyStr, result2, trace2, result1, trace1);
  }

  /** A run that meets `FlowSpec` stops no earlier than another: it stops only at a failing stage. */
  lemma {:induction false} NoShorter(cfg: Config, walletReply: WalletUtils.Reply, now: string, lib: Library, pyStr: Json -> string,
                                     result1: Json, trace1: seq<Call>, result2: Json, trace2: seq<Call>)
    requires FlowSpec(cfg, walletReply, now, lib, pyStr, result1, trace1)
    requires FlowSpec(cfg, walletReply, now, lib, pyStr, result2, trace2)
    ensures |trace1| >= |trace2|
  {
  }

  /** Two results of the same run that meet `FlowSpec` are the same. */
  lemma {:induction false} ResultsAgree(cfg: Config, walletReply: WalletUtils.Reply, now: string, lib: Library, pyStr: Json -> string, result1: Json, result2: Json, trace: seq<Call>)
    requires FlowSpec(cfg, walletReply, now, lib, pyStr, result1, trace)
    requires FlowSpec(cfg, walletReply, now, lib, pyStr, result2, trace)
    ensures result1 == result2
  {
    if |trace| <= 2 {
      EarlyResultsAgree(cfg, walletReply, now, lib, pyStr, result1, result2, trace);
    } else if |trace| == 4 {
      SubmissionResultsAgree(cfg, walletReply, now, lib, pyStr, result1, result2, trace);
    }
  }

  /** A run that ends at stage 1 or 2 has one result: one of that stage's failures. */
  lemma {:induction false} EarlyResultsAgree(cfg: Config, walletReply: WalletUtils.Reply, now: string, lib: Library, pyStr: Json -> string, result1: Json, result2: Json, trace: seq<Call>)
    requires FlowSpec(cfg, walletReply, now, lib, pyStr, result1, trace)
    requires FlowSpec(cfg, walletReply, now, lib, pyStr, result2, trace)
    requires |trace| <= 2
    ensures result1 == result2
  {
    var wr := WalletResponse(cfg, walletReply, now);
    GetChainMeaning(wr, AddressPath(), JNull);
    GetChainMeaning(wr, SignerPath(), JNull);
    if |trace| == 2 && AnswerSucceeded(Answer(lib, trace[1])) {
      GetChainMeaning(Answer(lib, trace[1]).value, TransactionIdPath(), JNull);
      GetChainMeaning(Answer(lib, trace[1]).value, UserOpHashPath(), JNull);
    }
  }

  /** A run that ends at stage 4 has one result: one of the submission's failures. */
  lemma {:induction false} SubmissionResultsAgree(cfg: Config, walletReply: WalletUtils.Reply, now: string, lib: Library, pyStr: Json -> string, result1: Json, result2: Json, trace: seq<Call>)
    requires FlowSpec(cfg, walletReply, now, lib, pyStr, result1, trace)
    requires FlowSpec(cfg, walletReply, now, lib, pyStr, result2, trace)
    requires |trace| == 4
    ensures result1 == result2
  {
    if AnswerSucceeded(Answer(lib, trace[3])) {
      GetChainMeaning(Answer(lib, trace[3]).value, SigningStatusPath(), JList([]));
    }
  }

  /**
   * `automate_wallet_flow()`. `walletReply` and `now` are the backend's
   * answer to the wallet-creation request and the time it is stamped with;
   * `pyStr` is Python's `str` of a container value.
   */
  method AutomateWalletFlow(cfg: Config, walletReply: WalletUtils.Reply, now: string, lib: Library, pyStr: Json -> string)
    returns (result: Json, trace: seq<Call>)
    ensures FlowSpec(cfg, walletReply, now, lib, pyStr, result, trace)
  {
    // Step 1: create the wallet
    var walletResponse := WalletResponse(cfg, walletReply, now);
    var wallet := ReadWallet(walletResponse);
    if wallet.Raised? {
      WalletStageFails(cfg, walletReply, now, lib, pyStr, wallet);
      return ErrorResult(wallet.message), [WalletCall(cfg)];
    }
    result, trace := SignTransaction(cfg, walletReply, now, lib, pyStr, wallet.value);
  }

  /** Steps 2 and 3 of the flow, for the wallet read in step 1. */
  method SignTransaction(cfg: Config, walletReply: WalletUtils.Reply, now: string, lib: Library, pyStr: Json -> string, wallet: WalletInfo)
    returns (result: Json, trace: seq<Call>)
    requires WalletRead(WalletResponse(cfg, walletReply, now), Ok(wallet))
    ensures FlowSpec(cfg, walletReply, now, lib, pyStr, result, trace)
  {
    // Step 2: create the transaction
    var transactionResponse := lib.createTransaction(cfg.apiKey, wallet.address, Chain());
    assert transactionResponse == Answer(lib, TransactionCall(cfg, wallet));
    var transaction := ReadTransaction(transactionResponse);
    if transaction.Raised? {
      TransactionStageFails(cfg, walletReply, now, lib, pyStr, wallet, transaction);
      return ErrorResult(transaction.message), [WalletCall(cfg), TransactionCall(cfg, wallet)];
    }

    // Step 3: sign the user-operation hash
    var signature := lib.generateSignature(cfg.privateKey, transaction.value.userOpHash);
    if signature.Raised? {
      SigningStageFails(cfg, walletReply, now, lib, pyStr, wallet, transaction.value);
      return ErrorResult(signature.message), [WalletCall(cfg), TransactionCall(cfg, wallet), SigningCall(cfg, transaction.value)];
    }
    result, trace := SubmitSignature(cfg, walletReply, now, lib, pyStr, wallet, transaction.value, signature.value);
  }

  /** Step 4 of the flow, for the wallet, transaction and signature of steps 1 to 3. */
  method SubmitSignature(cfg: Config, walletReply: WalletUtils.Reply, now: string, lib: Library, pyStr: Json -> string,
                         wallet: WalletInfo, transaction: TransactionInfo, signature: string)
    returns (result: Json, trace: seq<Call>)
    requires WalletRead(WalletResponse(cfg, walletReply, now), Ok(wallet))
    requires TransactionRead(Answer(lib, TransactionCall(cfg, wallet)), Ok(transaction))
    requires lib.generateSignature(cfg.privateKey, transaction.userOpHash) == Ok(signature)
    ensures FlowSpec(cfg, walletReply, now, lib, pyStr, result, trace)
  {
    // Step 4: submit the signature under the signer the backend echoed
    var signerId := SignerIdPrefix() + Format(wallet.signerAddress, pyStr);
    var submitResponse := lib.submitTransactionSignature(cfg.apiKey, wallet.address, transaction.id, signerId, signature);
    assert submitResponse == Answer(lib, SubmissionCall(cfg, wallet, transaction, signature, pyStr));
    var failure := CheckSubmission(submitResponse);
    if failure.Some? {
      SubmissionStageFails(cfg, walletReply, now, lib, pyStr, wallet, transaction, signature, failure);
      return ErrorResult(failure.value), [WalletCall(cfg), TransactionCall(cfg, wallet), SigningCall(cfg, transaction),
                                          SubmissionCall(cfg, wallet, transaction, signature, pyStr)];
    }
    result, trace := VerifyTransaction(cfg, walletReply, now, lib, pyStr, wallet, transaction, signature);
  }

  /** Step 5 of the flow, once the signature of steps 1 to 4 is recorded. */
  method VerifyTransaction(cfg: Config, walletReply: WalletUtils.Reply, now: string, lib: Library, pyStr: Json -> string,
                           wallet: WalletInfo, transaction: TransactionInfo, signature: string)
    returns (result: Json, trace: seq<Call>)
    requires WalletRead(WalletResponse(cfg, walletReply, now), Ok(wallet))
    requires TransactionRead(Answer(lib, TransactionCall(cfg, wallet)), Ok(transaction))
    requires lib.generateSignature(cfg.privateKey, transaction.userOpHash) == Ok(signature)
    requires SubmissionChecked(Answer(lib, SubmissionCall(cfg, wallet, transaction, signature, pyStr)), None)
    ensures FlowSpec(cfg, walletReply, now, lib, pyStr, result, trace)
  {
    // Step 5: re-fetch the transaction
    var transactionStatus := lib.getTransaction(cfg.apiKey, wallet.address, transaction.id);
    assert transactionStatus == Answer(lib, VerificationCall(cfg, wallet, transaction));
    var failure := CheckVerification(transactionStatus);
    trace := [WalletCall(cfg), TransactionCall(cfg, wallet), SigningCall(cfg, transaction),
              SubmissionCall(cfg, wallet, transaction, signature, pyStr), VerificationCall(cfg, wallet, transaction)];
    if failure.Some? {
      VerificationStageFails(cfg, walletReply, now, lib, pyStr, wallet, transaction, signature, failure);
      return ErrorResult(failure.value), trace;
    }
    FlowCompletes(cfg, walletReply, now, lib, pyStr, wallet, transaction, signature);
    result := SuccessResult(wallet.address, transaction.id, transaction.userOpHash, signature, transactionStatus.value);
  }
}
