/**
 * The assistant demo (`src/openai_assistant-hello-world/run.py`): the
 * wallet agent, the `tool_outputs` it builds for one batch of tool calls,
 * and the loop that polls a run until it completes, fails or expires.
 * The chat service is out of the model: the run states it reports and the
 * wallet API's replies are inputs.
 */
module AssistantAgent {
  import opened PyValue
  import WalletUtils
  import Registry

  const MaxApiCalls := 20
  function NoApiKeyMessage(): string { "No API key found in .env file" }
  function NoSignerMessage(): string { "No signer address found in .env file, be " + "sure to run 'python generate_keys.py' " + "inside '/src/library' to generate a new " + "set of keys" }

  function CreateToolName(): string { "create_new_wallet" }
  function OutputPrefix(): string { "Wallet created successfully: " }

  /** One tool call of a run, its `arguments` already decoded from JSON. */
  datatype ToolCall = ToolCall(id: string, name: string, arguments: map<string, string>)

  /** One entry of `tool_outputs`. */
  datatype ToolOutput = ToolOutput(toolCallId: string, output: string)

  /** The wallet API's answer to one creation request, and the time it was made. */
  datatype Exchange = Exchange(reply: WalletUtils.Reply, now: string)

  /**
   * What one batch of tool calls does: the outputs built, the creation
   * results in order, and the error message if the batch raised.
   */
  datatype Batch = Batch(outputs: seq<ToolOutput>, created: seq<Json>, failure: Option<string>)

  /** The `create_new_wallet` calls of a batch, in order. */
  function CreateCalls(calls: seq<ToolCall>): (r: seq<ToolCall>)
    // exactly the calls named `create_new_wallet`, never more of them than there are calls
    ensures forall c :: c in r <==> c in calls && c.name == CreateToolName()
    ensures |r| <= |calls|
    decreases |calls|
  {
    if calls == [] then []
    else
      var last := calls[|calls| - 1];
      assert calls == calls[..|calls| - 1] + [last];
      CreateCalls(calls[..|calls| - 1]) + (if last.name == CreateToolName() then [last] else [])
  }

  /**
   * The `for tool_call in tool_calls` loop. `create(walletType, j)` is
   * what the j-th `create_new_wallet` of the batch returns. A creation call
   * without `wallet_type` raises `KeyError` and ends the batch.
   */
  function Dispatch(calls: seq<ToolCall>, create: (string, nat) -> Json, pyStr: Json -> string): (b: Batch)
    ensures |b.outputs| == |b.created|
    decreases |calls|
  {
    if calls == [] then Batch([], [], None)
    else
      var prev := Dispatch(calls[..|calls| - 1], create, pyStr);
      var call := calls[|calls| - 1];
      if prev.failure.Some? || call.name != CreateToolName() then prev
      else if "wallet_type" !in call.arguments then Batch(prev.outputs, prev.created, Some(KeyErrorText("wallet_type")))
      else
        var result := create(call.arguments["wallet_type"], |prev.created|);
        Batch(prev.outputs + [ToolOutput(call.id, OutputPrefix() + Format(result, pyStr))], prev.created + [result], None)
  }

  /**
   * The batch creates one wallet per `create_new_wallet` call, in order,
   * and gives each the output `"Wallet created successfully: " + str(result)`
   * under that call's id, whatever the result; it runs through every such
   * call unless one lacks `wallet_type`, where it stops with `KeyError`.
   * Calls of other tools add nothing.
   */
  lemma {:induction false} DispatchMeaning(calls: seq<ToolCall>, create: (string, nat) -> Json, pyStr: Json -> string)
    ensures var b := Dispatch(calls, create, pyStr);
      var cs := CreateCalls(calls);
      && |b.created| <= |cs|
      && (forall j :: 0 <= j < |b.created| ==>
            && "wallet_type" in cs[j].arguments
            && b.created[j] == create(cs[j].arguments["wallet_type"], j)
            && b.outputs[j] == ToolOutput(cs[j].id, OutputPrefix() + Format(b.created[j], pyStr)))
      && (b.failure.None? <==> |b.created| == |cs|)
      && (b.failure.Some? ==> "wallet_type" !in cs[|b.created|].arguments && b.failure.value == KeyErrorText("wallet_type"))
    decreases |calls|
  {
    if calls != [] {
      DispatchMeaning(calls[..|calls| - 1], create, pyStr);
    }
  }

  /** The batch of the first i+1 calls, from the batch of the first i. */
  lemma {:induction false} DispatchNext(calls: seq<ToolCall>, create: (string, nat) -> Json, pyStr: Json -> string, i: nat)
    requires i < |calls|
    ensures var prev := Dispatch(calls[..i], create, pyStr);
      var call := calls[i];
      Dispatch(calls[..i + 1], create, pyStr) ==
        if prev.failure.Some? || call.name != CreateToolName() then prev
        else if "wallet_type" !in call.arguments then Batch(prev.outputs, prev.created, Some(KeyErrorText("wallet_type")))
        else
          var result := create(call.arguments["wallet_type"], |prev.created|);
          Batch(prev.outputs + [ToolOutput(call.id, OutputPrefix() + Format(result, pyStr))], prev.created + [result], None)
  {
    assert calls[..i + 1][..i] == calls[..i];
  }

  /** Once a batch has raised, the calls after it change nothing. */
  lemma {:induction false} DispatchStaysFailed(calls: seq<ToolCall>, create: (string, nat) -> Json, pyStr: Json -> string, n: nat)
    requires n <= |calls|
    requires Dispatch(calls[..n], create, pyStr).failure.Some?
    ensures Dispatch(calls, create, pyStr) == Dispatch(calls[..n], create, pyStr)
    decreases |calls|
  {
    if n < |calls| {
      var init := calls[..|calls| - 1];
      assert init[..n] == calls[..n];
      DispatchStaysFailed(init, create, pyStr, n);
    } else {
      assert calls[..n] == calls;
    }
  }

  /**
   * `create_new_wallet` of the agent with key `apiKey` and signer `signer`
   * in poll number `round`, where `backend(round, j, sent)` answers the
   * j-th creation, whose request (if any) is `sent`.
   */
  function Creator(apiKey: string, signer: string, backend: (nat, nat, Option<WalletUtils.Request>) -> Exchange, round: nat): (string, nat) -> Json {
    (walletType: string, j: nat) => CreationAt(signer, backend(round, j, WalletUtils.SentRequest(apiKey, walletType, signer)), walletType)
  }

  /** The result of one creation whose request was answered by `x`. */
  function CreationAt(signer: string, x: Exchange, walletType: string): Json {
    WalletUtils.CreationResult(walletType, signer, x.reply, x.now)
  }

  /** Every output of a batch shows `str()` of a creation result, a dict. */
  lemma {:induction false} OutputsShowResults(apiKey: string, signer: string, backend: (nat, nat, Option<WalletUtils.Request>) -> Exchange, round: nat,
                           calls: seq<ToolCall>, pyStr: Json -> string)
    ensures var b := Dispatch(calls, Creator(apiKey, signer, backend, round), pyStr);
      forall j :: 0 <= j < |b.outputs| ==> b.created[j].JDict? && b.outputs[j].output == OutputPrefix() + pyStr(b.created[j])
  {
    var create := Creator(apiKey, signer, backend, round);
    DispatchMeaning(calls, create, pyStr);
    var b := Dispatch(calls, create, pyStr);
    var cs := CreateCalls(calls);
    forall j | 0 <= j < |b.outputs| ensures b.created[j].JDict? {
      var walletType := cs[j].arguments["wallet_type"];
      var x := backend(round, j, WalletUtils.SentRequest(apiKey, walletType, signer));
      assert b.created[j] == WalletUtils.CreationResult(walletType, signer, x.reply, x.now);
    }
  }

  /** The tool-call branch of the agent with key `apiKey` and signer `signer`, for the polling loop. */
  function Handler(apiKey: string, signer: string, backend: (nat, nat, Option<WalletUtils.Request>) -> Exchange, pyStr: Json -> string)
    : (seq<ToolCall>, nat) -> Batch
  {
    (calls: seq<ToolCall>, round: nat) => Dispatch(calls, Creator(apiKey, signer, backend, round), pyStr)
  }

  /** One state of the run as `runs.retrieve` reports it. */
  datatype Poll = Poll(status: string, toolCalls: seq<ToolCall>)

  /**
   * How the polling loop ends: the run completed, ended with `failed` or
   * `expired`, or a tool call raised and the exception left `main`;
   * `StillPolling` is a loop that has not stopped within the polls given.
   */
  datatype Outcome = Completed | Ended(status: string) | Crashed(message: string) | StillPolling

  /** What the polling loop did: how it ended, how many polls it read, the outputs it submitted and the creations it made. */
  datatype RunTrace = RunTrace(outcome: Outcome, polled: nat, submitted: seq<seq<ToolOutput>>, created: seq<Json>)

  /** A status on which the loop stops. */
  predicate Terminal(status: string) {
    status == "completed" || status == "failed" || status == "expired"
  }

  /**
   * One pass of the polling loop: what the loop has done so far, `prev`,
   * and the state `poll` retrieved as poll number `round`.
   */
  function PollStep(prev: RunTrace, poll: Poll, round: nat, handle: (seq<ToolCall>, nat) -> Batch): RunTrace
  {
    if !prev.outcome.StillPolling? then prev
    else if poll.status == "completed" then RunTrace(Completed, round + 1, prev.submitted, prev.created)
    else if poll.status == "requires_action" then
      var b := handle(poll.toolCalls, round);
      if b.failure.Some? then RunTrace(Crashed(b.failure.value), round + 1, prev.submitted, prev.created + b.created)
      else RunTrace(StillPolling, round + 1, prev.submitted + [b.outputs], prev.created + b.created)
    else if poll.status == "failed" || poll.status == "expired" then
      RunTrace(Ended(poll.status), round + 1, prev.submitted, prev.created)
    else RunTrace(StillPolling, round + 1, prev.submitted, prev.created)
  }

  /** The polling loop over the run states `polls`; `handle(calls, p)` runs the tool calls of poll number p. */
  function Polling(polls: seq<Poll>, handle: (seq<ToolCall>, nat) -> Batch): (t: RunTrace)
    ensures t.polled <= |polls|
    ensures t.outcome.StillPolling? ==> t.polled == |polls|
    decreases |polls|
  {
    if polls == [] then RunTrace(StillPolling, 0, [], [])
    else
      PollStep(Polling(polls[..|polls| - 1], handle), polls[|polls| - 1], |polls| - 1, handle)
  }

  /** The poll at index p lets the loop go on. */
  predicate Continues(polls: seq<Poll>, handle: (seq<ToolCall>, nat) -> Batch, p: int)
    requires 0 <= p < |polls|
  {
    && !Terminal(polls[p].status)
    && (polls[p].status == "requires_action" ==> handle(polls[p].toolCalls, p).failure.None?)
  }

  /**
   * The loop reads polls until the first one that stops it: `completed`
   * completes, `failed` or `expired` ends the run with that status, and a
   * batch of tool calls that raises crashes it; every poll before that one
   * let it go on, and a loop that never stopped read them all.
   */
  lemma {:induction false} PollingStopsAtFirstStop(polls: seq<Poll>, handle: (seq<ToolCall>, nat) -> Batch)
    ensures var t := Polling(polls, handle);
      && (forall p :: 0 <= p < |polls| && p < t.polled - 1 ==> Continues(polls, handle, p))
      && (t.outcome.StillPolling? ==> forall p :: 0 <= p < |polls| ==> Continues(polls, handle, p))
      && (t.outcome.Completed? ==> 0 < t.polled && polls[t.polled - 1].status == "completed")
      && (t.outcome.Ended? ==> 0 < t.polled && polls[t.polled - 1].status == t.outcome.status &&
                                (t.outcome.status == "failed" || t.outcome.status == "expired"))
      && (t.outcome.Crashed? ==>
            && 0 < t.polled && polls[t.polled - 1].status == "requires_action"
            && handle(polls[t.polled - 1].toolCalls, t.polled - 1).failure == Some(t.outcome.message))
    decreases |polls|
  {
    if polls != [] {
      var init := polls[..|polls| - 1];
      PollingStopsAtFirstStop(init, handle);
      var prev := Polling(init, handle);
      forall p | 0 <= p < |init| ensures Continues(polls, handle, p) == Continues(init, handle, p) {
        assert polls[p] == init[p];
      }
    }
  }

  /**
   * The loop submits once for each `requires_action` poll it read, except
   * a last one whose batch raised.
   */
  lemma {:induction false} PollingSubmissionCount(polls: seq<Poll>, handle: (seq<ToolCall>, nat) -> Batch)
    ensures var t := Polling(polls, handle);
      |t.submitted| == |ActionPolls(polls[..t.polled])| - (if t.outcome.Crashed? then 1 else 0)
    decreases |polls|
  {
    if polls != [] {
      var init := polls[..|polls| - 1];
      PollingSubmissionCount(init, handle);
      var prev := Polling(init, handle);
      var t := Polling(polls, handle);
      var last := polls[|init|];
      PollStepSubmits(prev, last, |init|, handle);
      if prev.outcome.StillPolling? {
        assert polls[..t.polled] == polls && init[..prev.polled] == init;
        assert ActionPolls(polls) == ActionPolls(init) + (if last.status == "requires_action" then [|init|] else []);
      } else {
        assert polls[..t.polled] == init[..prev.polled];
      }
    }
  }

  /**
   * The j-th submission of the loop over `polls` is the outputs of the
   * batch of the j-th `requires_action` poll.
   */
  predicate SubmittedBatch(polls: seq<Poll>, handle: (seq<ToolCall>, nat) -> Batch, j: nat)
  {
    var t := Polling(polls, handle);
    var acts := ActionPolls(polls[..t.polled]);
    && j < |t.submitted| && j < |acts| && acts[j] < |polls|
    && t.submitted[j] == handle(polls[acts[j]].toolCalls, acts[j]).outputs
  }

  /**
   * Each `requires_action` poll the loop went past submitted the outputs
   * of its own batch of tool calls, in poll order.
   */
  lemma {:induction false} PollingSubmitsEachBatch(polls: seq<Poll>, handle: (seq<ToolCall>, nat) -> Batch, j: nat)
    requires j < |Polling(polls, handle).submitted|
    ensures SubmittedBatch(polls, handle, j)
    decreases |polls|
  {
    var init := polls[..|polls| - 1];
    var prev := Polling(init, handle);
    PollStepSubmits(prev, polls[|init|], |init|, handle);
    if j < |prev.submitted| {
      PollingSubmitsEachBatch(init, handle, j);
      SubmittedBatchExtends(polls, handle, j);
    } else {
      PollingSubmissionCount(init, handle);
      SubmittedBatchLast(polls, handle);
    }
  }

  /** The submission the last poll adds is the outputs of its own batch. */
  lemma {:induction false} SubmittedBatchLast(polls: seq<Poll>, handle: (seq<ToolCall>, nat) -> Batch)
    requires polls != []
    requires var prev := Polling(polls[..|polls| - 1], handle);
      && |prev.submitted| == |ActionPolls(polls[..|polls| - 1][..prev.polled])| - (if prev.outcome.Crashed? then 1 else 0)
      && |prev.submitted| < |Polling(polls, handle).submitted|
    ensures SubmittedBatch(polls, handle, |Polling(polls[..|polls| - 1], handle).submitted|)
  {
    var init := polls[..|polls| - 1];
    var prev := Polling(init, handle);
    var t := Polling(polls, handle);
    var last := polls[|init|];
    PollStepSubmits(prev, last, |init|, handle);
    assert polls[..t.polled] == polls && init[..prev.polled] == init;
    assert ActionPolls(polls) == ActionPolls(init) + [|init|];
  }

  /** A submission the loop made before the last poll stays as it was. */
  lemma {:induction false} SubmittedBatchExtends(polls: seq<Poll>, handle: (seq<ToolCall>, nat) -> Batch, j: nat)
    requires polls != []
    requires SubmittedBatch(polls[..|polls| - 1], handle, j)
    ensures SubmittedBatch(polls, handle, j)
  {
    var init := polls[..|polls| - 1];
    var prev := Polling(init, handle);
    var t := Polling(polls, handle);
    var last := polls[|init|];
    PollStepSubmits(prev, last, |init|, handle);
    var acts := ActionPolls(init[..prev.polled]);
    if prev.outcome.StillPolling? {
      assert polls[..t.polled] == polls && init[..prev.polled] == init;
      assert ActionPolls(polls) == acts + (if last.status == "requires_action" then [|init|] else []);
    } else {
      assert polls[..t.polled] == init[..prev.polled];
    }
    assert polls[acts[j]] == init[acts[j]];
  }

  /** One poll adds a submission exactly when it needs action and its batch does not raise. */
  lemma {:induction false} PollStepSubmits(prev: RunTrace, poll: Poll, round: nat, handle: (seq<ToolCall>, nat) -> Batch)
    ensures var t := PollStep(prev, poll, round, handle);
      var b := handle(poll.toolCalls, round);
      && (!prev.outcome.StillPolling? ==> t == prev)
      && (prev.outcome.StillPolling? ==>
            && t.polled == round + 1
            && (t.outcome.Crashed? <==> poll.status == "requires_action" && b.failure.Some?)
            && t.submitted == prev.submitted + (if poll.status == "requires_action" && b.failure.None? then [b.outputs] else []))
  {
  }

  /** The indices of the `requires_action` polls, in order. */
  function ActionPolls(polls: seq<Poll>): (r: seq<nat>)
    ensures forall j :: 0 <= j < |r| ==> r[j] < |polls| && polls[r[j]].status == "requires_action"
    decreases |polls|
  {
    if polls == [] then []
    else
      ActionPolls(polls[..|polls| - 1]) + (if polls[|polls| - 1].status == "requires_action" then [|polls| - 1] else [])
  }

  // ---------------------------------------------------------------------

  class AssistanceAgent {
    var apiKey: string
    var signerAddress: string
    var wallets: seq<Json>
    var apiCalls: int
    var maxApiCalls: int
    /** Every result `create_new_wallet` has returned, in order. */
    ghost var results: seq<Json>

    /** The wallet list is the outcome of the creations so far. */
    ghost predicate Valid()
      reads this
    {
      Registry.AllTrackable(results) && wallets == Registry.Tracked(results)
    }

    /** The field initialisation of `__init__`, once both keys are known to be set. */
    constructor (apiKey: string, signerAddress: string)
      ensures Valid()
      ensures this.apiKey == apiKey && this.signerAddress == signerAddress
      ensures wallets == [] && results == [] && apiCalls == 0 && maxApiCalls == MaxApiCalls
    {
      this.apiKey := apiKey;
      this.signerAddress := signerAddress;
      wallets := [];
      results := [];
      apiCalls := 0;
      maxApiCalls := MaxApiCalls;
    }

    /** `AssistanceAgent()` over the environment `env`: both the API key and the signer address must be set. */
    static method Init(env: map<string, string>) returns (r: Py<AssistanceAgent>)
      ensures !IsSet(GetEnv(env, "CROSSMINT_SERVER_API_KEY")) ==> r == Raised(NoApiKeyMessage())
      ensures IsSet(GetEnv(env, "CROSSMINT_SERVER_API_KEY")) && !IsSet(GetEnv(env, "SIGNER_ADDRESS")) ==> r == Raised(NoSignerMessage())
      ensures r.Ok? <==> IsSet(GetEnv(env, "CROSSMINT_SERVER_API_KEY")) && IsSet(GetEnv(env, "SIGNER_ADDRESS"))
      ensures r.Ok? ==>
        && fresh(r.value) && r.value.Valid()
        && r.value.apiKey == env["CROSSMINT_SERVER_API_KEY"]
        && r.value.signerAddress == env["SIGNER_ADDRESS"]
        && r.value.wallets == [] && r.value.apiCalls == 0 && r.value.maxApiCalls == MaxApiCalls
    {
      var key := GetEnv(env, "CROSSMINT_SERVER_API_KEY");
      if !IsSet(key) {
        return Raised(NoApiKeyMessage());
      }
      var signer := GetEnv(env, "SIGNER_ADDRESS");
      if !IsSet(signer) {
        return Raised(NoSignerMessage());
      }
      var agent := new AssistanceAgent(key.value, signer.value);
      return Ok(agent);
    }

    /**
     * `create_new_wallet(wallet_type)`: create a wallet for the agent's
     * signer, track its data when creation succeeds, and return the result
     * of `create_wallet` as it is.
     */
    method CreateNewWallet(walletType: string, reply: WalletUtils.Reply, now: string) returns (result: Json, sent: Option<WalletUtils.Request>)
      requires Valid()
      modifies this
      ensures Valid()
      ensures result == WalletUtils.CreationResult(walletType, signerAddress, reply, now)
      // the request is the one `create_wallet` sends with the stored key
      ensures WalletUtils.Created(sent, result) == WalletUtils.CreateWallet(apiKey, walletType, signerAddress, reply, now)
      ensures results == old(results) + [result]
      ensures wallets == old(wallets) + Registry.Appended(result)
      ensures apiKey == old(apiKey) && signerAddress == old(signerAddress)
      ensures apiCalls == old(apiCalls) && maxApiCalls == old(maxApiCalls)
    {
      sent := WalletUtils.SentRequest(apiKey, walletType, signerAddress);
      result := WalletUtils.CreationResult(walletType, signerAddress, reply, now);
      WalletUtils.SuccessCarriesWalletData(walletType, signerAddress, reply, now);
      Track(result);
    }

    /** `if result.get("status") == "success"`: the wallet data of a successful result joins the wallet list. */
    method Track(result: Json)
      requires Valid() && result.JDict? && Registry.Trackable(result)
      modifies this
      ensures Valid()
      ensures results == old(results) + [result]
      ensures wallets == old(wallets) + Registry.Appended(result)
      ensures apiKey == old(apiKey) && signerAddress == old(signerAddress)
      ensures apiCalls == old(apiCalls) && maxApiCalls == old(maxApiCalls)
    {
      Registry.TrackedAppend(results, result);
      if Registry.Succeeded(result) {
        wallets := wallets + [result.fields["wallet_data"]];
      }
      results := results + [result];
    }

    /** The `requires_action` branch of poll number `round`: build `tool_outputs` for `calls`. */
    method HandleToolCalls(calls: seq<ToolCall>, backend: (nat, nat, Option<WalletUtils.Request>) -> Exchange, round: nat, pyStr: Json -> string)
      returns (r: Py<seq<ToolOutput>>)
      requires Valid()
      modifies this
      ensures Valid()
      ensures var b := Dispatch(calls, Creator(apiKey, signerAddress, backend, round), pyStr);
        && results == old(results) + b.created
        && r == (if b.failure.Some? then Raised(b.failure.value) else Ok(b.outputs))
      ensures apiKey == old(apiKey) && signerAddress == old(signerAddress)
      ensures apiCalls == old(apiCalls) && maxApiCalls == old(maxApiCalls)
    {
      var outputs: seq<ToolOutput> := [];
      ghost var created: seq<Json> := [];
      var i := 0;
      while i < |calls|
        invariant 0 <= i <= |calls|
        invariant Valid()
        invariant Dispatch(calls[..i], Creator(apiKey, signerAddress, backend, round), pyStr) == Batch(outputs, created, None)
        invariant results == old(results) + created
        invariant apiKey == old(apiKey) && signerAddress == old(signerAddress)
        invariant apiCalls == old(apiCalls) && maxApiCalls == old(maxApiCalls)
      {
        var call := calls[i];
        DispatchNext(calls, Creator(apiKey, signerAddress, backend, round), pyStr, i);
        if call.name == CreateToolName() {
          if "wallet_type" !in call.arguments {
            DispatchStaysFailed(calls, Creator(apiKey, signerAddress, backend, round), pyStr, i + 1);
            return Raised(KeyErrorText("wallet_type"));
          }
          var walletType := call.arguments["wallet_type"];
          var x := backend(round, |outputs|, WalletUtils.SentRequest(apiKey, walletType, signerAddress));
          ghost var before := results;
          var result, sent := CreateNewWallet(walletType, x.reply, x.now);
          assert result == Creator(apiKey, signerAddress, backend, round)(walletType, |outputs|);
          SeqAssoc(old(results), created, [result]);
          outputs := outputs + [ToolOutput(call.id, OutputPrefix() + Format(result, pyStr))];
          created := created + [result];
        }
        i := i + 1;
      }
      assert calls[..|calls|] == calls;
      return Ok(outputs);
    }

    /**
     * The polling loop of `main` for one run: read the run states `polls`
     * in order, submit tool outputs on `requires_action`, and stop on
     * `completed`, `failed` or `expired`.
     */
    method PollRun(polls: seq<Poll>, backend: (nat, nat, Option<WalletUtils.Request>) -> Exchange, pyStr: Json -> string)
      returns (outcome: Outcome, polled: nat, submitted: seq<seq<ToolOutput>>)
      requires Valid()
      modifies this
      ensures Valid()
      ensures var t := Polling(polls, Handler(apiKey, signerAddress, backend, pyStr));
        && RunTrace(outcome, polled, submitted, t.created) == t
        && results == old(results) + t.created
      ensures apiKey == old(apiKey) && signerAddress == old(signerAddress)
      ensures apiCalls == old(apiCalls) && maxApiCalls == old(maxApiCalls)
    {
      submitted := [];
      ghost var created: seq<Json> := [];
      var p := 0;
      while p < |polls|
        invariant 0 <= p <= |polls|
        invariant Valid()
        invariant Polling(polls[..p], Handler(apiKey, signerAddress, backend, pyStr)) == RunTrace(StillPolling, p, submitted, created)
        invariant results == old(results) + created
        invariant apiKey == old(apiKey) && signerAddress == old(signerAddress)
        invariant apiCalls == old(apiCalls) && maxApiCalls == old(maxApiCalls)
      {
        var poll := polls[p];
        ghost var prev := RunTrace(StillPolling, p, submitted, created);
        assert polls[..p + 1][..p] == polls[..p];
        assert Polling(polls[..p + 1], Handler(apiKey, signerAddress, backend, pyStr)) ==
          PollStep(prev, poll, p, Handler(apiKey, signerAddress, backend, pyStr));
        if poll.status == "completed" {
          PollingStaysStopped(polls, Handler(apiKey, signerAddress, backend, pyStr), p + 1);
          return Completed, p + 1, submitted;
        } else if poll.status == "requires_action" {
          ghost var before := results;
          var r := HandleToolCalls(poll.toolCalls, backend, p, pyStr);
          ghost var b := Handler(apiKey, signerAddress, backend, pyStr)(poll.toolCalls, p);
          assert results == before + b.created;
          SeqAssoc(old(results), created, b.created);
          created := created + b.created;
          if r.Raised? {
            PollingStaysStopped(polls, Handler(apiKey, signerAddress, backend, pyStr), p + 1);
            return Crashed(r.message), p + 1, submitted;
          }
          submitted := submitted + [r.value];
        } else if poll.status == "failed" || poll.status == "expired" {
          PollingStaysStopped(polls, Handler(apiKey, signerAddress, backend, pyStr), p + 1);
          return Ended(poll.status), p + 1, submitted;
        }
        p := p + 1;
      }
      assert polls[..|polls|] == polls;
      return StillPolling, |polls|, submitted;
    }
  }

  lemma {:induction false} SeqAssoc<T>(a: seq<T>, b: seq<T>, c: seq<T>)
    ensures a + (b + c) == (a + b) + c
  {
  }

  /** Once the loop has stopped, later run states change nothing. */
  lemma {:induction false} PollingStaysStopped(polls: seq<Poll>, handle: (seq<ToolCall>, nat) -> Batch, n: nat)
    requires n <= |polls|
    requires !Polling(polls[..n], handle).outcome.StillPolling?
    ensures Polling(polls, handle) == Polling(polls[..n], handle)
    decreases |polls|
  {
    if n < |polls| {
      var init := polls[..|polls| - 1];
      assert init[..n] == polls[..n];
      PollingStaysStopped(init, handle, n);
    } else {
      assert polls[..n] == polls;
    }
  }
}
