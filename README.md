# Crossmint AI agent demos, modelled in Dafny

These demos give a chat model (OpenAI chat completions, an assistant run,
or a swarm helper) control of the Crossmint wallet API. At the centre is
`create_wallet`. It checks the wallet type against `evm-smart-wallet` and
`solana-custodial-wallet`, POSTs a payload whose signer type follows the
wallet type, and normalises the outcome into a result dict. That dict has
`"status": "success"` with the wallet data, or `"status": "error"` with the
exception text. An invalid type gives an error dict with no status.

Around it are several agents. Each keeps a list of the wallets it created:
a successful result's `wallet_data` is appended, anything else is not.
  - The minimal agent at the top of the repository.
  - The basic CLI agent (`src/cli-hello-world`).
  - The richer CLI agent (`src/cli_hello-world`). It adds balance queries,
    deposits from a treasury wallet, a numbered wallet picker, transfers
    to a picked wallet, and a budget of 20 chat calls whose system prompt
    lists the tracked wallets.
  - The assistant agent. Its polling loop handles `requires_action` runs
    by creating one wallet per `create_new_wallet` tool call and
    submitting `"Wallet created successfully: " + str(result)` for each.
  - The swarm agent. An AI helper rewrites its creation request, and a
    successful result gets an `ai_analysis`.

`automate_wallet_flow` chains five stages: create an EVM smart wallet,
create a base-sepolia transaction for it, sign its user-operation hash,
submit the signature and check that a completed signing record came
back, then re-fetch the transaction. The first failing stage ends the run
with `{"status": "error", "message": str(e)}`.

Modelling choices:
  - Python values are the datatype `PyValue.Json`, and exceptions are
    `Py<T>` (`Ok` or `Raised(str(e))`). `.get`, `x[key]` and `[0]` raise
    the `AttributeError`, `KeyError`, `TypeError` and `IndexError`
    messages CPython prints.
  - The wallet API's answer to a creation request is an input (`Reply`).
  - Library calls whose bodies are not part of this model are
    function-typed parameters: the chat model and the wallet functions
    other than `create_wallet`.
  - Each agent whose wallet list changes is a `class`. Its methods update
    the fields, and a ghost history of creation results ties the list to
    the successes (`Registry.Tracked`).
  - Loops in the source are `while` loops with invariants, proved against
    reference functions: the wallet picker, the tool-call loop and the
    polling loop.

Where the code and its design description disagree, the model follows the
code:
  - The description says any non-2xx reply is an error. `raise_for_status`
    raises only for status codes 400 to 599 (`RaisesForStatus`), so a
    reply with another code whose body decodes is a success.
  - The description says the error text comes from the backend's JSON
    error body or the raw response text. The code uses `str(e)` of the
    request exception (`FailureText`).
  - The description says a transaction needs a non-empty user-operation
    hash before it is signed. `automate_wallet_flow` signs whatever
    `transaction_data.data.userOperationHash` reads, `None` included.
  - In `src/cli_hello-world/run.py` the second definition of
    `transfer_tokens_to_wallet` (line 91) replaces the first (line 67).
    Only the second is reachable, and it is the one modelled.

## Model

| member | source | states |
|---|---|---|
| PyValue.GetChainMeaning | src/cli-hello-world/flow/automate.py:32-33 | a chain of `.get(key, {})` calls raises exactly when some value on the path is present but not a dict; otherwise it yields the value at the path, or the final default when a key is missing |
| PyValue.ParseIntOfIntToString | src/cli_hello-world/run.py:84 | `int(str(i)) == i` for every integer: the `int` of an input line reads back a printed number |
| PyValue.PyEqString | src/cli_hello-world/run.py:49 | Python `==` against a string holds exactly for that same string |
| PyValue.Or | src/cli-hello-world/run.py:10 | `a or b` on optional strings is truthy iff one of them is; it is `a` when `a` is truthy and `b` otherwise |
| Registry.TrackedAppend | src/cli_hello-world/run.py:41-42 | one creation result moves the wallet list on by its `wallet_data` if it succeeded, and by nothing otherwise |
| Registry.TrackedCountsSuccesses | src/cli-hello-world/run.py:24-26 | the tracked wallet list has one entry per successful creation result |
| Registry.NoSuccessNoWallets | src/cli-hello-world/run.py:19-20 | creation results that all fail leave the wallet list empty |
| WalletUtils.SignerTypeOfValidTypes | src/library/wallet_utils.py:22 | the `"evm" in wallet_type` test gives `evm-keypair` for the EVM smart wallet and `solana-keypair` for the Solana custodial wallet |
| WalletUtils.Payload | src/library/wallet_utils.py:18-26 | the payload holds the wallet type at `type`, and the signer address and signer type at `config.signer` |
| WalletUtils.SentRequest | src/library/wallet_utils.py:9-31 | no request for an invalid wallet type; otherwise a POST to the wallets endpoint with that payload and exactly the `x-api-key` and JSON content-type headers |
| WalletUtils.Normalise | src/library/wallet_utils.py:33-54 | the result reports success exactly when the reply passes `raise_for_status` and decodes, with exactly the five success keys; otherwise exactly `status`, `error` (the exception text) and `timestamp` |
| WalletUtils.CreationResult | src/library/wallet_utils.py:4-54 | an invalid type yields exactly `error` (the listed valid types) and `timestamp`; a valid type yields status `success` or `error`, success exactly when the reply is accepted, with the keys and fields of each case |
| WalletUtils.CreateWallet | src/library/wallet_utils.py:4-54 | a request is sent exactly when the type is valid, and the result has a `status` exactly when a request was sent |
| WalletUtils.SuccessCarriesWalletData | src/library/wallet_utils.py:41-47 | every result that reports success carries `wallet_data`, so every agent can append it |
| ToolsSchema.EnumMatchesValidTypes | src/library/tools_schema.py:13 | the schema's `wallet_type` enum is exactly the list of types `create_wallet` accepts |
| AutomateFlow.StagesInOrder | src/cli-hello-world/flow/automate.py:27-80 | a trace whose k-th call is of the k-th stage is a non-empty prefix of the five-stage pipeline |
| AutomateFlow.ErrorResult | src/cli-hello-world/flow/automate.py:96-100 | the handler's result reports an error with exactly `status` and `message`, and never success |
| AutomateFlow.SuccessResult | src/cli-hello-world/flow/automate.py:84-94 | the final result reports success with the completion message and exactly `status`, `message` and `data` |
| AutomateFlow.StatusCheck | src/cli-hello-world/flow/automate.py:29-30 | the status test raises nothing exactly when the response reports success, and raises the stage's message for a dict that does not |
| AutomateFlow.WalletResponseIsCreated | src/cli-hello-world/flow/automate.py:27 | stage 1's response is what `create_wallet` returns for the EVM smart wallet, the configured key and the configured signer |
| AutomateFlow.ReadWallet | src/cli-hello-world/flow/automate.py:29-33 | a failed creation raises "Wallet creation failed"; otherwise the address chain, then the signer chain, raises the `AttributeError` of the first non-dict it meets; reading succeeds exactly when both `.get` chains run on dicts, and then yields the wallet address and the echoed signer address |
| AutomateFlow.ReadTransaction | src/cli-hello-world/flow/automate.py:38-45 | an exception passes through, and a failed response raises "Transaction creation failed"; otherwise the id chain, then the hash chain, raises the `AttributeError` of the first non-dict; it yields the transaction id and user-operation hash exactly when both chains run on dicts |
| AutomateFlow.CheckSubmission | src/cli-hello-world/flow/automate.py:65-71 | an exception passes through and a failed response raises "Signature submission failed"; the submission passes exactly when it reports success and its first signing record reports `completed`; otherwise it raises what the code raises: the `AttributeError` of a non-dict on the record path, the `[0]` error of the records value (`IndexError` on an empty list, `TypeError` or `KeyError` on a non-list), the `AttributeError` of a first record that is not a dict, or "Signature was not properly recorded" |
| AutomateFlow.CheckVerification | src/cli-hello-world/flow/automate.py:80-82 | the re-fetch passes exactly when the stage returned a dict reporting success; an exception passes through and any other answer raises "Transaction verification failed" |
| AutomateFlow.AutomateWalletFlow | src/cli-hello-world/flow/automate.py:21-100 | a stage that passes leads on to the next, and the first failing stage ends the run with that failure's message, including the `AttributeError` of a `.get` chain that meets a non-dict (lines 32-33, 43-45, 69-70) and the `[0]` error of line 69; a stage runs only when every check before it passed, and gets the values read at the stages before it (wallet address, transaction id, hash, signature, `evm-keypair-` plus the echoed signer); success holds exactly when all five ran and the re-fetch succeeded, and then carries those values |
| AutomateFlow.SignTransaction | src/cli-hello-world/flow/automate.py:36-52 | from a wallet read in stage 1, stages 2 and 3 and the rest of the run end as the whole flow promises |
| AutomateFlow.SubmitSignature | src/cli-hello-world/flow/automate.py:54-73 | from the wallet, transaction and signature of stages 1 to 3, stage 4 and the rest of the run end as the whole flow promises |
| AutomateFlow.VerifyTransaction | src/cli-hello-world/flow/automate.py:75-94 | after a recorded submission, stage 5 ends the run with the verification error or with the success record |
| AutomateFlow.WalletStageFails | src/cli-hello-world/flow/automate.py:27-33 | a wallet response that fails its status test or a `.get` chain ends the run after stage 1 with that message |
| AutomateFlow.TransactionStageFails | src/cli-hello-world/flow/automate.py:38-45 | a transaction answer that raises, fails its status test or a `.get` chain ends the run after stage 2 with that message |
| AutomateFlow.SigningStageFails | src/cli-hello-world/flow/automate.py:50-51 | a raising signature ends the run after stage 3 with its message |
| AutomateFlow.SubmissionStageFails | src/cli-hello-world/flow/automate.py:56-71 | a submission that raises, fails, has no completed first record, or meets a non-dict or an empty list ends the run after stage 4 with that message |
| AutomateFlow.VerificationStageFails | src/cli-hello-world/flow/automate.py:80-82 | a re-fetch that raises or fails ends the run after stage 5 with that message |
| AutomateFlow.FlowCompletes | src/cli-hello-world/flow/automate.py:80-94 | a succeeding re-fetch ends the run with the success record of the values read on the way |
| AutomateFlow.FlowSpecDeterminate | src/cli-hello-world/flow/automate.py:21-100 | the flow's contract admits exactly one trace of stage calls and one result for each input |
| AutomateFlow.TracesAgree | src/cli-hello-world/flow/automate.py:27-80 | two runs meeting the contract call the same stages with the same arguments |
| AutomateFlow.NoShorter | src/cli-hello-world/flow/automate.py:27-80 | a run meeting the contract stops no earlier than any other: it stops only at a failing stage |
| AutomateFlow.ResultsAgree | src/cli-hello-world/flow/automate.py:84-100 | two results of the same run meeting the contract are the same |
| AutomateFlow.EarlyResultsAgree | src/cli-hello-world/flow/automate.py:29-45 | a run ending at stage 1 or 2 has one result, the message of the first check that failed |
| AutomateFlow.SubmissionResultsAgree | src/cli-hello-world/flow/automate.py:65-71 | a run ending at stage 4 has one result, the message of the first check of the submission that failed |
| BasicAgent.CryptoAIAgent.Init | src/cli-hello-world/run.py:9-13 | the agent exists exactly when the argument or `CROSSMINT_API_KEY` is set; it takes the argument first and starts with no wallets; otherwise the `ValueError` message |
| BasicAgent.CryptoAIAgent.constructor | src/cli-hello-world/run.py:9-13 | the key is stored and the wallet list starts empty |
| BasicAgent.CryptoAIAgent.CreateNewWallet | src/cli-hello-world/run.py:15-22 | calls `create_wallet` with the stored key: the request sent and the result are those of `CreateWallet` for that key; returns the result unchanged and moves the wallet list on by exactly what that result adds |
| BasicAgent.CryptoAIAgent.Track | src/cli-hello-world/run.py:19-20 | a successful result appends its `wallet_data` and any other result leaves the list as it was, keeping the list equal to the successes so far |
| BasicAgent.CryptoAIAgent.GetWalletCount | src/cli-hello-world/run.py:24-26 | the count is the number of successful creations since construction |
| RootAgent.CryptoAIAgent.constructor | run.py:4-6 | the key is stored as given and the wallet list starts empty |
| RootAgent.CryptoAIAgent.CreateNewWallet | run.py:8-15 | calls `create_wallet` with the stored key: the request sent and the result are those of `CreateWallet` for that key; returns the result unchanged and moves the wallet list on by exactly what that result adds |
| RootAgent.CryptoAIAgent.Track | run.py:12-13 | a successful result appends its `wallet_data`, and the list stays equal to the successes so far |
| RootAgent.CryptoAIAgent.GetWalletCount | run.py:17-19 | the count is the number of successful creations since construction |
| CliAgent.FindByAddress | src/cli_hello-world/run.py:49 | the generator finds the first wallet whose `address` equals the given one, none when every wallet has an address and none match, and otherwise raises on the first wallet without an address |
| CliAgent.FirstMatchUnique | src/cli_hello-world/run.py:49 | there is only one first matching wallet |
| CliAgent.ChainOf | src/cli_hello-world/run.py:54 | a wallet is queried on `ethereum-sepolia` exactly when its type is the EVM smart wallet, and on `solana-devnet` otherwise |
| CliAgent.ListingError | src/cli_hello-world/run.py:79-80 | the listing raises only at a wallet that exists |
| CliAgent.ListingErrorMeaning | src/cli_hello-world/run.py:79-80 | the listing raises nothing exactly when every wallet has an `address` and a `type` |
| CliAgent.ReadChoice | src/cli_hello-world/run.py:82-89 | a chosen position is always within the wallet list |
| CliAgent.ReadChoiceStopsAtFirstValid | src/cli_hello-world/run.py:82-89 | the loop stops at the first line whose `int` names a wallet, choosing `int(line) - 1`, after lines that named none; without such a line it reads every line |
| CliAgent.SelectFromMeaning | src/cli_hello-world/run.py:72-89 | with every wallet listed, selection returns exactly when a line named wallet k+1, and then returns `wallets[k]['address']`; otherwise it raises `EOFError` after reading every line |
| CliAgent.SelectFromEmpty | src/cli_hello-world/run.py:74-76 | with no wallets, selection returns `None` without reading input |
| CliAgent.FirstNonDict | src/cli_hello-world/run.py:114-115 | the position found is the first wallet that is not a dict, or the length of the list when all are dicts |
| CliAgent.WalletDetails | src/cli_hello-world/run.py:114-115 | the comprehension succeeds exactly when every wallet is a dict, with one line per wallet, and otherwise raises the `AttributeError` of the first non-dict |
| CliAgent.WalletDetailsLines | src/cli_hello-world/run.py:114-115 | line k of the comprehension describes wallet k, numbered k+1 |
| CliAgent.DetailsAreWalletLines | src/cli_hello-world/run.py:114-115 | the comprehension yields exactly the numbered descriptions of the wallets, in list order |
| CliAgent.WalletContext | src/cli_hello-world/run.py:112-116 | no wallets gives "No wallets created yet."; otherwise "Available wallets:" followed by one numbered line per wallet; it raises exactly when some wallet is not a dict |
| CliAgent.CryptoAIAgent.Init | src/cli_hello-world/run.py:20-35 | the missing API key, then the missing signer address, raise their messages; otherwise a fresh agent with both values, the optional treasury wallet, no wallets and a call budget of 20 |
| CliAgent.CryptoAIAgent.constructor | src/cli_hello-world/run.py:29-35 | the fields start as `__init__` sets them: no wallets, no calls made, budget 20 |
| CliAgent.CryptoAIAgent.CreateNewWallet | src/cli_hello-world/run.py:37-44 | calls `create_wallet` with the stored key and the agent's signer: the request sent and the result are those of `CreateWallet`; returns the result unchanged, and moves the wallet list on by exactly what it adds; keys and the call count are untouched |
| CliAgent.CryptoAIAgent.Track | src/cli_hello-world/run.py:41-42 | a successful result appends its `wallet_data`, keeping the list equal to the successes so far, and nothing else changes |
| CliAgent.CryptoAIAgent.GetWalletCount | src/cli_hello-world/run.py:100-102 | the count is the number of successful creations since construction |
| CliAgent.CryptoAIAgent.GetWalletBalance | src/cli_hello-world/run.py:46-57 | an untracked address is an error with no query; `w['address']` raising on a wallet before any match raises out with no query; a tracked one is queried with the agent's key, that address and the chain of the first matching wallet's type; a wallet without a type raises |
| CliAgent.CryptoAIAgent.DepositTokens | src/cli_hello-world/run.py:59-65 | a deposit is sent exactly when a treasury wallet is configured, from that wallet to the given address and amount; otherwise it raises the treasury message |
| CliAgent.CryptoAIAgent.SelectWallet | src/cli_hello-world/run.py:72-89 | the loop returns what the reference selection describes, having read the same number of input lines |
| CliAgent.CryptoAIAgent.TransferTokensToWallet | src/cli_hello-world/run.py:91-98 | a transfer is sent exactly when a wallet was selected, to that wallet's address with the agent's key, chain and amount; no selection is an error, and a raising selection passes through |
| CliAgent.CryptoAIAgent.CountApiCall | src/cli_hello-world/run.py:106-109 | a call is counted exactly when the budget is not spent, and only the counter changes |
| CliAgent.CryptoAIAgent.ChatCompletion | src/cli_hello-world/run.py:104-135 | a spent budget raises and counts nothing; otherwise it counts one call and asks the chat model with the wallet context in the system prompt, or raises where the context raises; the wallet list never changes |
| AssistantAgent.CreateCalls | src/openai_assistant-hello-world/run.py:105 | a call is among those handled exactly when it is a call of the batch named `create_new_wallet`, and there are never more of them than calls |
| AssistantAgent.Dispatch | src/openai_assistant-hello-world/run.py:101-112 | there is one output per creation made |
| AssistantAgent.DispatchMeaning | src/openai_assistant-hello-world/run.py:101-112 | creation j is done with the wallet type of the j-th `create_new_wallet` call, and its output carries that call's id and the success text with `str(result)`; the batch runs through every such call unless one lacks `wallet_type`, and then raises `KeyError` there |
| AssistantAgent.DispatchStaysFailed | src/openai_assistant-hello-world/run.py:104-107 | once a batch has raised, the calls after it change nothing |
| AssistantAgent.OutputsShowResults | src/openai_assistant-hello-world/run.py:109-112 | with the agent's `create_new_wallet`, every output shows `str()` of a creation result, which is a dict |
| AssistantAgent.Polling | src/openai_assistant-hello-world/run.py:85-124 | the loop reads no more polls than given, and a loop that has not stopped has read them all |
| AssistantAgent.PollingStopsAtFirstStop | src/openai_assistant-hello-world/run.py:91-124 | the loop stops at the first poll that is `completed`, `failed` or `expired`, or whose tool calls raise; every poll before it let the loop continue |
| AssistantAgent.PollingSubmissionCount | src/openai_assistant-hello-world/run.py:99-119 | there is one submission per `requires_action` poll read, except a last one whose batch raised |
| AssistantAgent.PollingSubmitsEachBatch | src/openai_assistant-hello-world/run.py:99-119 | the j-th submission is the outputs of the batch of the j-th `requires_action` poll |
| AssistantAgent.PollStepSubmits | src/openai_assistant-hello-world/run.py:99-119 | one poll adds a submission exactly when it needs action and its batch does not raise |
| AssistantAgent.PollingStaysStopped | src/openai_assistant-hello-world/run.py:98-122 | once the loop has stopped, later run states change nothing |
| AssistantAgent.AssistanceAgent.Init | src/openai_assistant-hello-world/run.py:22-35 | the missing API key, then the missing signer address, raise their messages; otherwise a fresh agent with both values, no wallets and a call budget of 20 |
| AssistantAgent.AssistanceAgent.constructor | src/openai_assistant-hello-world/run.py:31-35 | no wallets, no calls made, budget 20 |
| AssistantAgent.AssistanceAgent.CreateNewWallet | src/openai_assistant-hello-world/run.py:39-46 | calls `create_wallet` with the stored key and the agent's signer: the request sent and the result are those of `CreateWallet`; returns the result unchanged, and moves the wallet list on by exactly what it adds |
| AssistantAgent.AssistanceAgent.Track | src/openai_assistant-hello-world/run.py:43-44 | a successful result appends its `wallet_data`, keeping the list equal to the successes so far |
| AssistantAgent.AssistanceAgent.HandleToolCalls | src/openai_assistant-hello-world/run.py:101-112 | the loop over the tool calls produces the outputs of `Dispatch`, or its `KeyError`, and records exactly the creations that batch makes, each answered for the request sent with the agent's key |
| AssistantAgent.AssistanceAgent.PollRun | src/openai_assistant-hello-world/run.py:85-124 | the polling loop ends as `Polling` describes, with the same polls read and outputs submitted, and records exactly the creations of the batches it handled |
| SwarmAgent.EnhancedCreate | src/hello-world-openai-swarm/run.py:20-40 | `create_wallet` runs exactly when the enhanced request has both fields, and on those fields; a missing field raises its `KeyError`; a failed creation is returned as it is; a success is returned with `ai_analysis` added, or the analysis error is raised |
| SwarmAgent.CreationTrackable | src/hello-world-openai-swarm/run.py:36-37 | every result of `create_wallet` can be tracked |
| SwarmAgent.AnalysisMarksSuccess | src/hello-world-openai-swarm/run.py:36-40 | a returned result is a dict that carries `ai_analysis` exactly when the creation succeeded |
| SwarmAgent.SwarmAIAgent.Init | src/hello-world-openai-swarm/run.py:10-16 | the agent exists exactly when both keys are set, each taken from the argument or else the environment; otherwise the `ValueError` message |
| SwarmAgent.SwarmAIAgent.constructor | src/hello-world-openai-swarm/run.py:16 | both keys are stored and the wallet list starts empty |
| SwarmAgent.SwarmAIAgent.CreateNewWallet | src/hello-world-openai-swarm/run.py:20-40 | returns or raises what `EnhancedCreate` says, with `create_wallet` answering the request sent with the agent's Crossmint key; the wallet list moves on by the `create_wallet` result whenever creation ran, even when the analysis then raises |
| SwarmAgent.SwarmAIAgent.Track | src/hello-world-openai-swarm/run.py:36-37 | a successful result appends its `wallet_data`, keeping the list equal to the successes so far |

## Left out

- The HTTP transport of `create_wallet` is not modelled. The reply (transport failure, or status code and body) is an input, and so is the ISO timestamp `now`.
- `create_transaction`, `generate_signature`, `submit_transaction_signature`, `get_transaction`, `get_wallet_balance`, `deposit_tokens` and `transfer_tokens` are not part of this model; their bodies are not shown. They are function parameters that may return a value or raise.
- The signature itself is not modelled: no secp256k1 signing and no key handling.
- `time.sleep` in the polling loop and before the re-fetch does not change any result and is left out.
- CliAgent.CryptoAIAgent.Init and AssistantAgent.AssistanceAgent.Init: `OpenAI()` in `__init__` raises when `OPENAI_API_KEY` is unset; that check is not modelled, so the promised fresh agent exists only when that key is also set.
- The OpenAI clients are not modelled. The chat completion is a parameter given the system prompt and the user text. The assistant's run states are a finite input sequence, and `enhance_wallet_request` and `analyze_wallet_creation` are parameters.
- The model, message history and tools arguments of the chat request are not modelled; only the prompt text and the user input are.
- `json.loads` of the tool arguments is not modelled; the arguments arrive decoded.
- `str()` of dicts and lists is a parameter `pyStr`; the strings, integers, booleans and `None` it formats are spelled out.
- AssistantAgent.Polling: a run that never stops is modelled as a loop still polling after the last state given (`StillPolling`), rather than as a loop that does not terminate.
- PyValue.ParseInt: `int()` accepts ASCII whitespace, one sign and ASCII digits only; underscores and non-ASCII digits are not modelled, nor is CPython's limit of 4300 digits on integer-string conversion.
- PyValue.ParseIntOfIntToString: holds for integers of any size; CPython's 4300-digit limit on `str` and `int` conversion is not modelled.
- The interactive `main` loops are left out: reading commands, printing, routing the chat model's tool calls in the CLI agents, and the random farewell.
- The first `transfer_tokens_to_wallet` (`src/cli_hello-world/run.py:67-70`) is left out because the second definition replaces it.
- AutomateFlow.AutomateWalletFlow: the environment values are strings, so an unset variable (`None`) passed to the library is not represented.
- The scripts `2_get_usdc.py`, `3_generate_signature.py` and `4_submit_signature.py` are left out; they run single stages by hand.
- The `chat_history`, `openai_client` and `client` fields are never read by the modelled operations and are left out; so are `ai_agent` and its construction in the swarm agent.
- The print of `ai_recommendations` in the swarm agent is left out.
- `Json` has no floating-point case: the values handled here are dicts, lists, strings, integers, booleans and `None`.
- The model follows `requests` 2.27 or later, where a body that does not decode raises a `RequestException`; in older versions it raises a `ValueError` that `create_wallet` does not catch.
- RootAgent.CryptoAIAgent.constructor: `api_key` is a string; `CryptoAIAgent(None)` is not represented.
