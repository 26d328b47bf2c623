/** The onboarding page that deploys the user's primary Safe: one attempt runs
    wallet guard, reset, chain switch and verification, payload request,
    typed-data signature and relay submission in order; an effect then
    reconciles the relay task's state. External calls are abstract outcomes
    supplied by the caller, and every call the page makes is recorded. */
module CreateSafe {
  import opened JsValues
  import SafeRouter

  /** `base.id`, the chain id of Base mainnet. */
  const BASE_CHAIN_ID := 8453

  // ---------------------------------------------------------------------------
  // Messages.
  // ---------------------------------------------------------------------------

  /** An error object caught by the page: its `message` and `shortMessage`. */
  datatype ThrownError = ThrownError(message: Option<string>, shortMessage: Option<string>)

  const WALLET_REQUIRED := "An embedded wallet is required. Please create one by clicking the button below."
  const SWITCH_FAILED := "Failed to switch to Base network. Please switch to Base network in your wallet and try again."
  const CHAIN_UNVERIFIED := "Failed to verify current chain. Please try again."
  const USER_REJECTED := "User rejected the request"
  const REJECTED_IN_WALLET := "Transaction rejected in wallet."
  const UNKNOWN_DEPLOYMENT_ERROR := "An unknown error occurred during Safe deployment."

  function DigitChar(d: nat): (c: char)
    requires d < 10
    ensures '0' <= c <= '9' && c as int - '0' as int == d
  {
    ('0' as int + d) as char
  }

  /** The decimal digits of `n`. */
  function Digits(n: nat): (r: string)
    ensures |r| >= 1
    ensures forall k :: 0 <= k < |r| ==> '0' <= r[k] <= '9'
    decreases n
  {
    if n < 10 then [DigitChar(n)] else Digits(n / 10) + [DigitChar(n % 10)]
  }

  /** The number a string of decimal digits spells, most significant first. */
  function DecimalValue(s: string): nat
    decreases |s|
  {
    if |s| == 0 then 0
    else
      var d := s[|s| - 1] as int - '0' as int;
      DecimalValue(s[..|s| - 1]) * 10 + (if 0 <= d < 10 then d else 0)
  }

  /** The digits spell the number back, so different numbers print
      differently. */
  lemma {:induction false} DigitsValue(n: nat)
    ensures DecimalValue(Digits(n)) == n
    decreases n
  {
    if n >= 10 {
      DigitsValue(n / 10);
      var r := Digits(n);
      assert r[..|r| - 1] == Digits(n / 10);
    }
  }

  lemma DigitsInjective(m: nat, n: nat)
    ensures Digits(m) == Digits(n) <==> m == n
  {
    DigitsValue(m);
    DigitsValue(n);
  }

  /** A number interpolated into a template string. */
  function Decimal(n: int): string
  {
    if n < 0 then "-" + Digits(-n) else Digits(n)
  }

  /** The value of `${x}` for a property that may be `undefined`. */
  function Interpolate(x: Option<string>): string
  {
    match x
    case Some(v) => v
    case None => "undefined"
  }

  const WRONG_CHAIN_OPENING := "Your wallet is connected to chain ID "
  const WRONG_CHAIN_CLOSING := "). Please switch to Base network and try again."

  function WrongChainMessage(chainId: int): string
  {
    WRONG_CHAIN_OPENING + Decimal(chainId) + ", but we need Base (" + Decimal(BASE_CHAIN_ID) + WRONG_CHAIN_CLOSING
  }

  /** Digits put between an opening and a rest are found right after the
      opening, and they spell the number. */
  lemma DigitsBetween(opening: string, n: nat, rest: string)
    requires |rest| > 0
    ensures var m := opening + Digits(n) + rest;
            var p, d := |opening|, |Digits(n)|;
            && p + d < |m|
            && StartsWith(m, opening)
            && DecimalValue(m[p..p + d]) == n
            && (forall k :: p <= k < p + d ==> '0' <= m[k] <= '9')
            && m[p + d] == rest[0]
  {
    DigitsValue(n);
    var d := Digits(n);
    var m := opening + d + rest;
    assert m == opening + (d + rest);
    assert m[|opening|..|opening| + |d|] == d;
    forall k | |opening| <= k < |opening| + |d| ensures '0' <= m[k] <= '9' {
      assert m[k] == d[k - |opening|];
    }
  }

  /** The wrong-chain message shows the chain id the wallet reported: right
      after the fixed opening stand digits that spell it, closed by a comma. */
  lemma WrongChainMessageShowsChainId(chainId: int)
    requires chainId >= 0
    ensures var m := WrongChainMessage(chainId);
            var p := |WRONG_CHAIN_OPENING|;
            var d := |Digits(chainId)|;
            && p + d < |m|
            && StartsWith(m, WRONG_CHAIN_OPENING)
            && DecimalValue(m[p..p + d]) == chainId
            && (forall k :: p <= k < p + d ==> '0' <= m[k] <= '9')
            && m[p + d] == ','
  {
    var rest := ", but we need Base (" + Decimal(BASE_CHAIN_ID) + WRONG_CHAIN_CLOSING;
    assert WrongChainMessage(chainId) == WRONG_CHAIN_OPENING + Digits(chainId) + rest;
    DigitsBetween(WRONG_CHAIN_OPENING, chainId, rest);
  }

  /** The inner catch around signing and relay submission. */
  function SignFailureMessage(e: ThrownError): (m: string)
    ensures StartsWith(m, "Failed to sign the transaction: ")
    ensures Truthy(e.message) ==> m == "Failed to sign the transaction: " + e.message.value
    ensures !Truthy(e.message) ==> m == "Failed to sign the transaction: Unknown error"
  {
    "Failed to sign the transaction: " + OrElse(e.message, "Unknown error")
  }

  /** The outer catch: a wallet rejection wins, then `shortMessage`, then
      `message`, then the fixed default. */
  function OuterErrorMessage(e: ThrownError): (m: string)
    ensures e.message.Some? && Includes(e.message.value, USER_REJECTED) ==> m == REJECTED_IN_WALLET
    ensures !(e.message.Some? && Includes(e.message.value, USER_REJECTED)) && Truthy(e.shortMessage) ==>
              m == e.shortMessage.value
    ensures (!(e.message.Some? && Includes(e.message.value, USER_REJECTED)) && !Truthy(e.shortMessage)
              && Truthy(e.message)) ==> m == e.message.value
    ensures !Truthy(e.shortMessage) && !Truthy(e.message) ==> m == UNKNOWN_DEPLOYMENT_ERROR
  {
    if e.message.Some? && Includes(e.message.value, USER_REJECTED) then REJECTED_IN_WALLET
    else if Truthy(e.shortMessage) then e.shortMessage.value
    else if Truthy(e.message) then e.message.value
    else UNKNOWN_DEPLOYMENT_ERROR
  }

  /** Whatever was thrown, the outer catch shows a non-empty message, so the
      error alert is displayed. */
  lemma OuterErrorMessageNonEmpty(e: ThrownError)
    ensures OuterErrorMessage(e) != ""
  {
  }

  /** A message that mentions the rejection anywhere is reported as a rejection,
      whatever `shortMessage` says. */
  lemma RejectionAnywhere(e: ThrownError, before: string, after: string)
    requires e.message == Some(before + USER_REJECTED + after)
    ensures OuterErrorMessage(e) == REJECTED_IN_WALLET
  {
    var s := before + USER_REJECTED + after;
    assert s[|before|..|before| + |USER_REJECTED|] == USER_REJECTED;
    assert OccursAt(s, USER_REJECTED, |before|);
    IncludesIffOccurs(s, USER_REJECTED);
  }

  function DeploymentFailedMessage(taskState: string): string
  {
    "Deployment failed: " + taskState + ". Please try again."
  }

  function PersistFailedMessage(e: ThrownError): string
  {
    "Safe created, but failed to save profile: " + Interpolate(e.message)
      + ". Please copy the address and contact support."
  }

  /** The connected-address line: the first six and last four characters. */
  function ShortAddress(address: Option<string>): (r: string)
    ensures !Truthy(address) ==> r == "No wallet connected"
    ensures Truthy(address) ==>
              var a := address.value;
              r == a[..(if |a| < 6 then |a| else 6)] + "..." + a[(if |a| < 4 then 0 else |a| - 4)..]
    ensures Truthy(address) && |address.value| >= 10 ==>
              r == address.value[..6] + "..." + address.value[|address.value| - 4..]
  {
    if Truthy(address) then
      Slice(address.value, 0, 6) + "..." + SliceFrom(address.value, -4)
    else "No wallet connected"
  }

  /** A well-formed address shortens to 13 characters that keep its "0x". */
  lemma ShortAddressOfSafeAddress(a: string)
    requires SafeRouter.IsSafeAddress(a)
    ensures |ShortAddress(Some(a))| == 13
    ensures StartsWith(ShortAddress(Some(a)), "0x")
    ensures ShortAddress(Some(a))[6..9] == "..."
  {
    SafeRouter.SafeAddressIff(a);
  }

  // ---------------------------------------------------------------------------
  // The typed-data request and the relay request.
  // ---------------------------------------------------------------------------

  datatype TypedDataDomain = TypedDataDomain(name: string, version: string, chainId: int, verifyingContract: string)

  datatype TypedField = TypedField(name: string, fieldType: string)

  /** The `types` argument: one primary type and its fields. */
  datatype TypedDataTypes = TypedDataTypes(primaryType: string, fields: seq<TypedField>)

  /** The signed message; `value` is the request's decimal value string. */
  datatype ForwardRequest = ForwardRequest(chainId: int, target: string, data: string, value: string)

  const GELATO_VERIFYING_CONTRACT := "0xd8253782c45a12053594b9fe356782de4236bf0e"

  const FORWARD_REQUEST_TYPES := TypedDataTypes("ForwardRequest", [
    TypedField("chainId", "uint256"),
    TypedField("target", "address"),
    TypedField("data", "bytes"),
    TypedField("value", "uint256")])

  function RelayDomain(chainId: int): (d: TypedDataDomain)
    ensures d.name == "GelatoRelayERC2771" && d.version == "1"
    ensures d.chainId == chainId && d.verifyingContract == GELATO_VERIFYING_CONTRACT
  {
    TypedDataDomain("GelatoRelayERC2771", "1", chainId, GELATO_VERIFYING_CONTRACT)
  }

  /** The relay request built from the payload. */
  function RelayRequestOf(p: SafeRouter.DeploymentPayload): (r: SafeRouter.RelayRequest)
    ensures r.chainId == BASE_CHAIN_ID && r.target == p.to && r.data == p.data && r.value == p.value
  {
    SafeRouter.RelayRequest(BASE_CHAIN_ID, p.to, p.data, p.value)
  }

  /** The message signed for a relay request. */
  function ForwardMessageOf(r: SafeRouter.RelayRequest): (m: ForwardRequest)
    ensures m.chainId == BASE_CHAIN_ID && m.target == r.target && m.data == r.data && m.value == r.value
  {
    ForwardRequest(BASE_CHAIN_ID, r.target, r.data, r.value)
  }

  // ---------------------------------------------------------------------------
  // One attempt, as a function of the collaborators' outcomes.
  // ---------------------------------------------------------------------------

  /** What an awaited call produced: a value, or a thrown error. */
  datatype Outcome<T> = Returned(value: T) | Threw(error: ThrownError)

  /** The outcome of every external call an attempt may make. */
  datatype CreateSafeEnv = CreateSafeEnv(
    hasWallet: bool,                         // an embedded wallet exists
    switchChainFails: bool,                  // `switchChain(base.id)` rejects
    providerError: Option<ThrownError>,      // `getEthereumProvider()` rejects
    chainIdReply: Option<int>,               // parsed `eth_chainId`; `None`: the request rejects
    signerAddress: Outcome<string>,          // `signer.getAddress()`
    payload: Outcome<SafeRouter.DeploymentPayload>,  // the payload mutation's reply
    signature: Outcome<string>,              // `_signTypedData(...)`
    relayReply: Outcome<string>)             // the relay mutation's `taskId`

  /** The external calls the page makes. */
  datatype Call =
    | SwitchChain(chainId: int)
    | GetEthereumProvider
    | RequestChainId
    | GetSignerAddress
    | RequestDeploymentPayload(owner: string)
    | SignTypedData(domain: TypedDataDomain, types: TypedDataTypes, message: ForwardRequest)
    | SubmitRelay(input: SafeRouter.RelayInput)
    | CompleteOnboarding(primarySafeAddress: string)

  /** Which exit of `handleCreateSafe` an attempt takes. */
  datatype Exit =
    | WalletMissing
    | SwitchFailed
    | ChainUnverified            // `eth_chainId` rejected: the attempt never resumes
    | WrongChain(chainId: int)
    | Aborted(error: ThrownError)                          // the outer catch
    | SignOrRelayFailed(predicted: string, error: ThrownError)  // the inner catch
    | Submitted(predicted: string, taskId: string)

  datatype Attempt = Attempt(exit: Exit, calls: seq<Call>)

  /** How the chain steps end: `None` when the wallet is verified on Base. */
  function ChainCheck(env: CreateSafeEnv): Option<Exit>
  {
    if env.switchChainFails then Some(SwitchFailed)
    else if env.providerError.Some? then Some(Aborted(env.providerError.value))
    else if env.chainIdReply.None? then Some(ChainUnverified)
    else if env.chainIdReply.value != BASE_CHAIN_ID then Some(WrongChain(env.chainIdReply.value))
    else None
  }

  /** The calls of the chain steps: switch, provider, `eth_chainId`. */
  function ChainCheckCalls(env: CreateSafeEnv): seq<Call>
  {
    [SwitchChain(BASE_CHAIN_ID)] +
      if env.switchChainFails then []
      else [GetEthereumProvider] + if env.providerError.Some? then [] else [RequestChainId]
  }

  /** How the deployment steps end, once the chain is verified. */
  function DeployExit(env: CreateSafeEnv): Exit
  {
    if env.signerAddress.Threw? then Aborted(env.signerAddress.error)
    else if env.payload.Threw? then Aborted(env.payload.error)
    else
      var predicted := env.payload.value.predicted;
      if env.signature.Threw? then SignOrRelayFailed(predicted, env.signature.error)
      else if env.relayReply.Threw? then SignOrRelayFailed(predicted, env.relayReply.error)
      else Submitted(predicted, env.relayReply.value)
  }

  /** The calls of the deployment steps: signer address, payload, signature, relay. */
  function DeployCalls(env: CreateSafeEnv): seq<Call>
  {
    [GetSignerAddress] +
      if env.signerAddress.Threw? then []
      else
        var owner := env.signerAddress.value;
        [RequestDeploymentPayload(owner)] +
          if env.payload.Threw? then []
          else
            var request := RelayRequestOf(env.payload.value);
            [SignTypedData(RelayDomain(BASE_CHAIN_ID), FORWARD_REQUEST_TYPES, ForwardMessageOf(request))] +
              if env.signature.Threw? then []
              else [SubmitRelay(SafeRouter.RelayInput(request, env.signature.value))]
  }

  /** The exit an attempt takes and the calls it makes, in order. Only a
      missing wallet calls nothing, and every other attempt starts with the
      chain switch; a task is submitted exactly when every step succeeds on
      Base, and it then carries the payload's address and the relay's id. */
  function Run(env: CreateSafeEnv): (a: Attempt)
    ensures a.exit == WalletMissing <==> !env.hasWallet
    ensures a.calls == [] <==> !env.hasWallet
    ensures a.calls != [] ==> a.calls[0] == SwitchChain(BASE_CHAIN_ID)
    ensures |a.calls| <= 7
    ensures a.exit.Submitted? <==>
              && env.hasWallet && !env.switchChainFails && env.providerError.None?
              && env.chainIdReply == Some(BASE_CHAIN_ID)
              && env.signerAddress.Returned? && env.payload.Returned?
              && env.signature.Returned? && env.relayReply.Returned?
    ensures a.exit.Submitted? ==>
              a.exit.predicted == env.payload.value.predicted && a.exit.taskId == env.relayReply.value
  {
    if !env.hasWallet then Attempt(WalletMissing, [])
    else if ChainCheck(env).Some? then Attempt(ChainCheck(env).value, ChainCheckCalls(env))
    else Attempt(DeployExit(env), ChainCheckCalls(env) + DeployCalls(env))
  }

  // ---------------------------------------------------------------------------
  // Page state.
  // ---------------------------------------------------------------------------

  /** The page's `useState` cells. */
  datatype PageState = PageState(
    isLoading: bool,
    deploymentError: string,
    deployedSafeAddress: Option<string>,
    taskId: Option<string>,
    needsWallet: bool)

  const INITIAL_STATE := PageState(false, "", None, None, false)

  /** The reset at the start of an attempt. */
  function BeginAttempt(s: PageState): (r: PageState)
    ensures r.isLoading && r.deploymentError == "" && r.deployedSafeAddress.None? && r.taskId.None?
    ensures r.needsWallet == s.needsWallet
  {
    s.(isLoading := true, deploymentError := "", deployedSafeAddress := None, taskId := None)
  }

  /** The state an exit leaves behind. */
  function Settle(s: PageState, exit: Exit): PageState
  {
    var r := BeginAttempt(s);
    match exit
    case WalletMissing => s.(needsWallet := true, deploymentError := WALLET_REQUIRED)
    case SwitchFailed => r.(deploymentError := SWITCH_FAILED, isLoading := false)
    case ChainUnverified => r.(deploymentError := CHAIN_UNVERIFIED, isLoading := false)
    case WrongChain(n) => r.(deploymentError := WrongChainMessage(n), isLoading := false)
    case Aborted(e) => r.(deploymentError := OuterErrorMessage(e), isLoading := false)
    case SignOrRelayFailed(p, e) =>
      r.(deployedSafeAddress := Some(p), deploymentError := SignFailureMessage(e), isLoading := false)
    case Submitted(p, t) => r.(deployedSafeAddress := Some(p), taskId := Some(t))
  }

  /** The state after `handleCreateSafe` has run to one of its exits. With a
      wallet nothing of the earlier state but `needsWallet` survives, and an
      address is tracked exactly when the payload arrived. */
  function AfterCreateSafe(s: PageState, env: CreateSafeEnv): (r: PageState)
    ensures r.needsWallet == (s.needsWallet || !env.hasWallet)
    ensures !env.hasWallet ==> r.isLoading == s.isLoading && r.taskId == s.taskId
                               && r.deployedSafeAddress == s.deployedSafeAddress
    ensures env.hasWallet ==> Consistent(r)
    ensures env.hasWallet ==>
              (r.deployedSafeAddress.Some? <==>
                 Run(env).exit.SignOrRelayFailed? || Run(env).exit.Submitted?)
    ensures r.deployedSafeAddress.Some? && env.hasWallet ==>
              env.payload.Returned? && r.deployedSafeAddress == Some(env.payload.value.predicted)
  {
    Settle(s, Run(env).exit)
  }

  /** `disabled={isLoading || !embeddedWallet || !!taskId}`. */
  predicate StartDisabled(s: PageState, hasWallet: bool)
  {
    s.isLoading || !hasWallet || Truthy(s.taskId)
  }

  /** A press of the start button: disabled buttons do not fire. */
  function AfterPress(s: PageState, env: CreateSafeEnv): PageState
  {
    if StartDisabled(s, env.hasWallet) then s else AfterCreateSafe(s, env)
  }

  function PressCalls(s: PageState, env: CreateSafeEnv): seq<Call>
  {
    if StartDisabled(s, env.hasWallet) then [] else Run(env).calls
  }

  /** The wallet-presence effect. */
  function AfterWalletCheck(s: PageState, hasWallet: bool): (r: PageState)
    ensures r.needsWallet == !hasWallet
    ensures r.(needsWallet := s.needsWallet) == s
  {
    s.(needsWallet := !hasWallet)
  }

  /** The relay task status the effect sees. */
  datatype TaskStatus = TaskStatus(taskState: string, transactionHash: Option<string>)

  const EXEC_SUCCESS := "ExecSuccess"
  const EXEC_REVERTED := "ExecReverted"
  const CANCELLED := "Cancelled"

  predicate IsTerminal(taskState: string)
  {
    taskState == EXEC_SUCCESS || taskState == EXEC_REVERTED || taskState == CANCELLED
  }

  /** Whether the status effect calls persistence for this status. */
  predicate Persists(s: PageState, status: Option<TaskStatus>)
  {
    Truthy(s.taskId) && status.Some? && status.value.taskState == EXEC_SUCCESS && Truthy(s.deployedSafeAddress)
  }

  /** The task-status effect; `persistError` is the outcome of the
      `completeOnboarding` mutation when it is called. */
  function AfterStatus(s: PageState, status: Option<TaskStatus>, persistError: Option<ThrownError>): (r: PageState)
    ensures r.taskId == s.taskId && r.deployedSafeAddress == s.deployedSafeAddress
    ensures r.needsWallet == s.needsWallet
    ensures r.isLoading ==> s.isLoading
    ensures r != s ==> Truthy(s.taskId) && status.Some? && IsTerminal(status.value.taskState)
  {
    if !Truthy(s.taskId) || status.None? then s
    else
      var taskState := status.value.taskState;
      if taskState == EXEC_SUCCESS then
        if Truthy(s.deployedSafeAddress) then
          match persistError
          case None => s.(isLoading := false)
          case Some(e) => s.(deploymentError := PersistFailedMessage(e), isLoading := false)
        else s
      else if taskState == EXEC_REVERTED || taskState == CANCELLED then
        s.(deploymentError := DeploymentFailedMessage(taskState), isLoading := false)
      else s
  }

  function StatusCalls(s: PageState, status: Option<TaskStatus>): seq<Call>
  {
    if Persists(s, status) then [CompleteOnboarding(s.deployedSafeAddress.value)] else []
  }

  /** The page-level invariant: a task id only exists together with the
      predicted address of the payload that was relayed. */
  predicate Consistent(s: PageState)
  {
    s.taskId.Some? ==> s.deployedSafeAddress.Some?
  }

  // ---------------------------------------------------------------------------
  // Properties of one attempt.
  // ---------------------------------------------------------------------------

  /** Calls that belong to the payload step or later. */
  predicate PayloadOrLater(c: Call)
  {
    c.RequestDeploymentPayload? || c.SignTypedData? || c.SubmitRelay?
  }

  /** Without an embedded wallet only `needsWallet` and the error change, and
      nothing is called. */
  lemma NoWalletAttempt(s: PageState, env: CreateSafeEnv)
    requires !env.hasWallet
    ensures AfterCreateSafe(s, env) == s.(needsWallet := true, deploymentError := WALLET_REQUIRED)
    ensures AfterCreateSafe(s, env).isLoading == s.isLoading && AfterCreateSafe(s, env).taskId == s.taskId
    ensures Run(env).calls == []
  {
  }

  /** A failed chain switch, an unverifiable chain or a wrong chain ends the
      attempt before the payload request, with loading cleared. */
  lemma ChainFailureStopsEarly(s: PageState, env: CreateSafeEnv)
    requires env.hasWallet
    requires env.switchChainFails || env.chainIdReply.None? || env.chainIdReply != Some(BASE_CHAIN_ID)
    ensures var r := AfterCreateSafe(s, env);
            !r.isLoading && r.taskId.None? && r.deployedSafeAddress.None? && r.deploymentError != ""
    ensures env.switchChainFails ==> AfterCreateSafe(s, env).deploymentError == SWITCH_FAILED
    ensures !env.switchChainFails && env.providerError.None? && env.chainIdReply.Some? ==>
              AfterCreateSafe(s, env).deploymentError == WrongChainMessage(env.chainIdReply.value)
    ensures forall k :: 0 <= k < |Run(env).calls| ==> !PayloadOrLater(Run(env).calls[k])
  {
    var calls := Run(env).calls;
    assert |calls| <= 3;
    assert forall k :: 0 <= k < |calls| ==>
             calls[k] in [SwitchChain(BASE_CHAIN_ID), GetEthereumProvider, RequestChainId];
  }

  /** A failed signature or relay submission reports the sign-failure message,
      clears loading and leaves no task id. */
  lemma SignOrRelayFailure(s: PageState, env: CreateSafeEnv)
    requires Run(env).exit.SignOrRelayFailed?
    ensures var r := AfterCreateSafe(s, env);
            && !r.isLoading && r.taskId.None?
            && r.deploymentError == "Failed to sign the transaction: " + OrElse(Run(env).exit.error.message, "Unknown error")
            && r.deployedSafeAddress == Some(env.payload.value.predicted)
    ensures env.signature.Threw? ==> Run(env).exit.error == env.signature.error
    ensures env.signature.Returned? ==> Run(env).exit.error == env.relayReply.error
  {
  }

  /** A task id is set exactly when the relay returned one, and the relay call
      is then the attempt's last call. */
  lemma TaskIdOnlyFromRelay(s: PageState, env: CreateSafeEnv)
    requires env.hasWallet
    ensures AfterCreateSafe(s, env).taskId.Some? <==> Run(env).exit.Submitted?
    ensures AfterCreateSafe(s, env).taskId.Some? ==>
              && env.relayReply.Returned?
              && AfterCreateSafe(s, env).taskId == Some(env.relayReply.value)
              && |Run(env).calls| == 7
              && Run(env).calls[6].SubmitRelay?
  {
  }

  /** The relay is called at most once per attempt, and only as its last
      call; an attempt that calls it ends submitted or with the relay's
      failure. */
  lemma RelayCallIsLast(env: CreateSafeEnv, k: nat)
    requires k < |Run(env).calls| && Run(env).calls[k].SubmitRelay?
    ensures k == |Run(env).calls| - 1
    ensures Run(env).exit.Submitted? ||
              (Run(env).exit.SignOrRelayFailed? && env.relayReply.Threw? && Run(env).exit.error == env.relayReply.error)
  {
  }

  /** The signing request and the relay request are built from the payload,
      on Base, with the fixed domain and schema; the relay receives the
      signature the wallet produced; the payload is requested for the signer's
      address. */
  lemma RequestsFollowPayload(env: CreateSafeEnv, k: nat)
    requires k < |Run(env).calls|
    ensures var c := Run(env).calls[k];
            c.RequestDeploymentPayload? ==> env.signerAddress == Returned(c.owner)
    ensures var c := Run(env).calls[k];
            c.SignTypedData? ==>
              && env.payload.Returned?
              && var p := env.payload.value;
              && c.domain == TypedDataDomain("GelatoRelayERC2771", "1", BASE_CHAIN_ID, GELATO_VERIFYING_CONTRACT)
              && c.types == FORWARD_REQUEST_TYPES
              && c.message == ForwardRequest(BASE_CHAIN_ID, p.to, p.data, p.value)
    ensures var c := Run(env).calls[k];
            c.SubmitRelay? ==>
              && env.payload.Returned? && env.signature.Returned?
              && var p := env.payload.value;
              && c.input.request == SafeRouter.RelayRequest(BASE_CHAIN_ID, p.to, p.data, p.value)
              && c.input.signature == env.signature.value
  {
  }

  /** With the payload the server builds for the signer's address, the relay
      targets the Safe proxy factory with value "0", and the address the page
      tracks is the server's placeholder. */
  lemma ServedPayloadAttempt(env: CreateSafeEnv)
    requires env.hasWallet && ChainCheck(env).None?
    requires env.signerAddress.Returned?
    requires env.payload == Returned(SafeRouter.GetDeploymentPayload(env.signerAddress.value))
    requires env.signature.Returned?
    ensures var request := Run(env).calls[6].input.request;
            && Run(env).calls[6].SubmitRelay?
            && request.target == SafeRouter.SAFE_PROXY_FACTORY && request.value == "0"
            && request.chainId == BASE_CHAIN_ID
    ensures Run(env).exit.SignOrRelayFailed? || Run(env).exit.Submitted?
    ensures Run(env).exit.predicted == SafeRouter.ZERO_ADDRESS
  {
  }

  /** Every failure exit clears loading and shows a non-empty error; a
      submitted attempt keeps loading with no error. */
  lemma ExitLeavesLoading(s: PageState, env: CreateSafeEnv)
    requires env.hasWallet
    ensures Run(env).exit.Submitted? ==>
              AfterCreateSafe(s, env).isLoading && AfterCreateSafe(s, env).deploymentError == ""
    ensures !Run(env).exit.Submitted? ==>
              !AfterCreateSafe(s, env).isLoading && AfterCreateSafe(s, env).deploymentError != ""
  {
    match Run(env).exit
    case SwitchFailed =>
    case ChainUnverified =>
    case WrongChain(_) =>
    case Aborted(e) => OuterErrorMessageNonEmpty(e);
    case SignOrRelayFailed(_, _) =>
    case Submitted(_, _) =>
  }

  /** An attempt starts fresh: with a wallet, its outcome does not depend on
      what earlier attempts left behind, apart from `needsWallet`. */
  lemma AttemptIgnoresEarlierState(s1: PageState, s2: PageState, env: CreateSafeEnv)
    requires env.hasWallet && s1.needsWallet == s2.needsWallet
    ensures AfterCreateSafe(s1, env) == AfterCreateSafe(s2, env)
  {
  }

  /** The start button cannot fire without a wallet, while loading, or while a
      task is being tracked. */
  lemma DisabledPressIsNoOp(s: PageState, env: CreateSafeEnv)
    requires !env.hasWallet || s.isLoading || Truthy(s.taskId)
    ensures AfterPress(s, env) == s && PressCalls(s, env) == []
  {
  }

  /** After a submitted attempt, further presses do nothing and call nothing. */
  lemma SecondPressAfterSubmitIsNoOp(s: PageState, env1: CreateSafeEnv, env2: CreateSafeEnv)
    requires !StartDisabled(s, env1.hasWallet) && Run(env1).exit.Submitted?
    ensures AfterPress(AfterPress(s, env1), env2) == AfterPress(s, env1)
    ensures PressCalls(AfterPress(s, env1), env2) == []
  {
  }

  lemma AfterCreateSafeConsistent(s: PageState, env: CreateSafeEnv)
    requires Consistent(s)
    ensures Consistent(AfterCreateSafe(s, env))
  {
  }

  // ---------------------------------------------------------------------------
  // Properties of the status effect.
  // ---------------------------------------------------------------------------

  /** On success with an address, persistence receives exactly that address,
      which is the payload's predicted address; loading is cleared and the
      address is kept even when persistence fails. */
  lemma SuccessPersistsTrackedAddress(s: PageState, status: TaskStatus, persistError: Option<ThrownError>)
    requires Truthy(s.taskId) && Truthy(s.deployedSafeAddress) && status.taskState == EXEC_SUCCESS
    ensures StatusCalls(s, Some(status)) == [CompleteOnboarding(s.deployedSafeAddress.value)]
    ensures var r := AfterStatus(s, Some(status), persistError);
            && !r.isLoading && r.deployedSafeAddress == s.deployedSafeAddress && r.taskId == s.taskId
            && (persistError.None? ==> r.deploymentError == s.deploymentError)
            && (persistError.Some? ==> r.deploymentError == PersistFailedMessage(persistError.value))
  {
  }

  /** Across a submitted attempt and a successful task, persistence receives
      exactly the predicted address of the payload that was relayed. */
  lemma SubmittedThenSuccess(s: PageState, env: CreateSafeEnv, status: TaskStatus)
    requires env.hasWallet && Run(env).exit.Submitted?
    requires Run(env).exit.taskId != "" && Run(env).exit.predicted != ""
    requires status.taskState == EXEC_SUCCESS
    ensures env.payload.Returned?
    ensures StatusCalls(AfterCreateSafe(s, env), Some(status)) == [CompleteOnboarding(env.payload.value.predicted)]
  {
  }

  /** Without an address, success changes nothing and persists nothing. */
  lemma SuccessWithoutAddressIsNoOp(s: PageState, status: TaskStatus, persistError: Option<ThrownError>)
    requires status.taskState == EXEC_SUCCESS && !Truthy(s.deployedSafeAddress)
    ensures AfterStatus(s, Some(status), persistError) == s
    ensures StatusCalls(s, Some(status)) == []
  {
  }

  /** A reverted or cancelled task reports the state and clears loading. */
  lemma TerminalFailure(s: PageState, status: TaskStatus, persistError: Option<ThrownError>)
    requires Truthy(s.taskId) && (status.taskState == EXEC_REVERTED || status.taskState == CANCELLED)
    ensures AfterStatus(s, Some(status), persistError) ==
              s.(deploymentError := "Deployment failed: " + status.taskState + ". Please try again.", isLoading := false)
    ensures StatusCalls(s, Some(status)) == []
  {
  }

  /** Any other state leaves everything unchanged. */
  lemma NonTerminalIsNoOp(s: PageState, status: TaskStatus, persistError: Option<ThrownError>)
    requires !IsTerminal(status.taskState)
    ensures AfterStatus(s, Some(status), persistError) == s
    ensures StatusCalls(s, Some(status)) == []
  {
  }

  lemma AfterStatusConsistent(s: PageState, status: Option<TaskStatus>, persistError: Option<ThrownError>)
    requires Consistent(s)
    ensures Consistent(AfterStatus(s, status, persistError))
    ensures AfterStatus(s, status, persistError).taskId == s.taskId
  {
  }

  /** A reverted or cancelled task keeps its task id, so the start button
      stays disabled: the failure is shown, but pressing again does nothing
      and calls nothing, and the status is still polled. */
  lemma FailedTaskKeepsStartDisabled(s: PageState, status: TaskStatus, persistError: Option<ThrownError>,
                                     env: CreateSafeEnv)
    requires Truthy(s.taskId) && (status.taskState == EXEC_REVERTED || status.taskState == CANCELLED)
    ensures var r := AfterStatus(s, Some(status), persistError);
            && !r.isLoading && r.deploymentError == DeploymentFailedMessage(status.taskState)
            && Truthy(r.taskId) && StartDisabled(r, env.hasWallet)
            && AfterPress(r, env) == r && PressCalls(r, env) == []
  {
  }

  datatype Observed = Observed(state: PageState, calls: seq<Call>)

  /** The effect run once per observed status, in order. */
  function ObserveAll(s: PageState, statuses: seq<TaskStatus>, persistError: Option<ThrownError>): Observed
    decreases |statuses|
  {
    if |statuses| == 0 then Observed(s, [])
    else
      var next := AfterStatus(s, Some(statuses[0]), persistError);
      var rest := ObserveAll(next, statuses[1..], persistError);
      Observed(rest.state, StatusCalls(s, Some(statuses[0])) + rest.calls)
  }

  /** Pending states followed by success: persistence is called exactly once,
      with the tracked address, and loading ends cleared. */
  lemma {:induction false} PendingThenSuccess(s: PageState, pending: seq<TaskStatus>, last: TaskStatus,
                                              persistError: Option<ThrownError>)
    requires Truthy(s.taskId) && Truthy(s.deployedSafeAddress)
    requires forall k :: 0 <= k < |pending| ==> !IsTerminal(pending[k].taskState)
    requires last.taskState == EXEC_SUCCESS
    ensures ObserveAll(s, pending + [last], persistError).calls == [CompleteOnboarding(s.deployedSafeAddress.value)]
    ensures !ObserveAll(s, pending + [last], persistError).state.isLoading
    decreases |pending|
  {
    if |pending| == 0 {
      assert pending + [last] == [last];
    } else {
      NonTerminalIsNoOp(s, pending[0], persistError);
      assert (pending + [last])[1..] == pending[1..] + [last];
      PendingThenSuccess(s, pending[1..], last, persistError);
    }
  }

  /** Pending states followed by a revert or cancellation: nothing is
      persisted and the failure is reported. */
  lemma {:induction false} PendingThenFailure(s: PageState, pending: seq<TaskStatus>, last: TaskStatus,
                                              persistError: Option<ThrownError>)
    requires Truthy(s.taskId)
    requires forall k :: 0 <= k < |pending| ==> !IsTerminal(pending[k].taskState)
    requires last.taskState == EXEC_REVERTED || last.taskState == CANCELLED
    ensures ObserveAll(s, pending + [last], persistError).calls == []
    ensures ObserveAll(s, pending + [last], persistError).state.deploymentError == DeploymentFailedMessage(last.taskState)
    ensures !ObserveAll(s, pending + [last], persistError).state.isLoading
    decreases |pending|
  {
    if |pending| == 0 {
      assert pending + [last] == [last];
    } else {
      NonTerminalIsNoOp(s, pending[0], persistError);
      assert (pending + [last])[1..] == pending[1..] + [last];
      PendingThenFailure(s, pending[1..], last, persistError);
    }
  }

  // ---------------------------------------------------------------------------
  // The page.
  // ---------------------------------------------------------------------------

  /** Some relay submission has been made. */
  ghost predicate Relayed(trace: seq<Call>)
  {
    exists k :: 0 <= k < |trace| && trace[k].SubmitRelay?
  }

  lemma RelayedExtends(t: seq<Call>, u: seq<Call>)
    requires Relayed(t)
    ensures Relayed(t + u)
  {
    var k :| 0 <= k < |t| && t[k].SubmitRelay?;
    assert (t + u)[k] == t[k];
  }

  class CreateSafePage {
    var isLoading: bool
    var deploymentError: string
    var deployedSafeAddress: Option<string>
    var taskId: Option<string>
    var needsWallet: bool
    /** Every external call made, in order. */
    ghost var trace: seq<Call>

    function State(): PageState
      reads this
    {
      PageState(isLoading, deploymentError, deployedSafeAddress, taskId, needsWallet)
    }

    ghost predicate Valid()
      reads this
    {
      && Consistent(State())
      && (taskId.Some? ==> Relayed(trace))
    }

    constructor ()
      ensures Valid() && State() == INITIAL_STATE && trace == []
    {
      isLoading, deploymentError, deployedSafeAddress, taskId, needsWallet := false, "", None, None, false;
      trace := [];
    }

    /** Records one external call. */
    method Record(c: Call)
      modifies this`trace
      ensures trace == old(trace) + [c]
    {
      trace := trace + [c];
    }

    /** Ends the attempt with an error and loading cleared. */
    method Fail(message: string)
      modifies this`deploymentError, this`isLoading
      ensures deploymentError == message && !isLoading
    {
      deploymentError := message;
      isLoading := false;
    }

    /** `handleCreateSafe`. */
    method HandleCreateSafe(env: CreateSafeEnv)
      requires Valid()
      modifies this
      ensures Valid()
      ensures State() == AfterCreateSafe(old(State()), env)
      ensures trace == old(trace) + Run(env).calls
    {
      if !env.hasWallet {
        needsWallet := true;
        deploymentError := WALLET_REQUIRED;
        return;
      }
      ghost var before := State();
      isLoading := true;
      deploymentError := "";
      deployedSafeAddress := None;
      taskId := None;
      assert State() == BeginAttempt(before);

      var onBase := VerifyChain(env);
      if onBase {
        Deploy(env);
        assert State() == Settle(before, DeployExit(env));
        if taskId.Some? {
          assert trace[|trace| - 1].SubmitRelay?;
        }
      } else {
        assert State() == Settle(before, ChainCheck(env).value);
      }
    }

    /** Steps 1 to 3: switch to Base, get the provider, verify the chain id. */
    method VerifyChain(env: CreateSafeEnv) returns (onBase: bool)
      requires State() == BeginAttempt(State())
      modifies this
      ensures onBase <==> ChainCheck(env).None?
      ensures onBase ==> State() == old(State())
      ensures !onBase ==> State() == Settle(old(State()), ChainCheck(env).value)
      ensures trace == old(trace) + ChainCheckCalls(env)
    {
      Record(SwitchChain(BASE_CHAIN_ID));
      if env.switchChainFails {
        Fail(SWITCH_FAILED);
        return false;
      }
      Record(GetEthereumProvider);
      if env.providerError.Some? {
        Fail(OuterErrorMessage(env.providerError.value));
        return false;
      }
      Record(RequestChainId);
      if env.chainIdReply.None? {
        Fail(CHAIN_UNVERIFIED);
        return false;
      }
      var chainId := env.chainIdReply.value;
      if chainId != BASE_CHAIN_ID {
        Fail(WrongChainMessage(chainId));
        return false;
      }
      return true;
    }

    /** Steps 4 to 11: owner address, payload, signature, relay, task id. */
    method Deploy(env: CreateSafeEnv)
      requires State() == BeginAttempt(State()) && ChainCheck(env).None?
      modifies this
      ensures State() == Settle(old(State()), DeployExit(env))
      ensures trace == old(trace) + DeployCalls(env)
      ensures taskId.Some? ==> trace[|trace| - 1].SubmitRelay?
    {
      ghost var s0 := State();
      Record(GetSignerAddress);
      if env.signerAddress.Threw? {
        assert DeployCalls(env) == [GetSignerAddress];
        Fail(OuterErrorMessage(env.signerAddress.error));
        assert State() == Settle(s0, Aborted(env.signerAddress.error));
        return;
      }
      var owner := env.signerAddress.value;
      Record(RequestDeploymentPayload(owner));
      if env.payload.Threw? {
        assert DeployCalls(env) == [GetSignerAddress, RequestDeploymentPayload(owner)];
        Fail(OuterErrorMessage(env.payload.error));
        assert State() == Settle(s0, Aborted(env.payload.error));
        return;
      }
      var payload := env.payload.value;
      deployedSafeAddress := Some(payload.predicted);
      assert DeployCalls(env) == [GetSignerAddress, RequestDeploymentPayload(owner)] + DeployCalls(env)[2..];
      ghost var s1 := State();
      assert s1 == s0.(deployedSafeAddress := Some(payload.predicted));
      SignAndSubmit(env);
      ghost var exit := DeployExit(env);
      if exit.Submitted? {
        assert State() == s1.(taskId := Some(exit.taskId)) == Settle(s0, exit);
      } else {
        assert State() == s1.(deploymentError := SignFailureMessage(exit.error), isLoading := false)
                       == Settle(s0, exit);
      }
    }

    /** Steps 7 to 11, once the payload has arrived: the typed-data signature,
        the relay submission and the task id. */
    method SignAndSubmit(env: CreateSafeEnv)
      requires ChainCheck(env).None? && env.signerAddress.Returned? && env.payload.Returned?
      requires taskId.None?
      modifies this
      ensures var exit := DeployExit(env);
              State() == if exit.Submitted? then old(State()).(taskId := Some(exit.taskId))
                         else old(State()).(deploymentError := SignFailureMessage(exit.error), isLoading := false)
      ensures trace == old(trace) + DeployCalls(env)[2..]
      ensures taskId.Some? ==> trace[|trace| - 1].SubmitRelay?
    {
      var request := RelayRequestOf(env.payload.value);
      var domain := RelayDomain(env.chainIdReply.value);
      var message := ForwardMessageOf(request);
      Record(SignTypedData(domain, FORWARD_REQUEST_TYPES, message));
      if env.signature.Threw? {
        Fail(SignFailureMessage(env.signature.error));
        return;
      }
      var signature := env.signature.value;
      Record(SubmitRelay(SafeRouter.RelayInput(request, signature)));
      if env.relayReply.Threw? {
        Fail(SignFailureMessage(env.relayReply.error));
        return;
      }
      taskId := Some(env.relayReply.value);
    }

    /** The start button's `onClick`, behind its `disabled` guard. */
    method PressStart(env: CreateSafeEnv)
      requires Valid()
      modifies this
      ensures Valid()
      ensures State() == AfterPress(old(State()), env)
      ensures trace == old(trace) + PressCalls(old(State()), env)
    {
      if !StartDisabled(State(), env.hasWallet) {
        HandleCreateSafe(env);
      }
    }

    /** The task-status effect, run once for the status the query holds. */
    method ReconcileStatus(status: Option<TaskStatus>, persistError: Option<ThrownError>)
      requires Valid()
      modifies this
      ensures Valid()
      ensures State() == AfterStatus(old(State()), status, persistError)
      ensures trace == old(trace) + StatusCalls(old(State()), status)
    {
      if Truthy(taskId) && status.Some? {
        var taskState := status.value.taskState;
        if taskState == EXEC_SUCCESS {
          if Truthy(deployedSafeAddress) {
            var safeAddress := deployedSafeAddress.value;
            Record(CompleteOnboarding(safeAddress));
            RelayedExtends(old(trace), [CompleteOnboarding(safeAddress)]);
            match persistError
            case None =>
              isLoading := false;
            case Some(e) =>
              deploymentError := PersistFailedMessage(e);
              isLoading := false;
          }
        } else if taskState == EXEC_REVERTED || taskState == CANCELLED {
          deploymentError := DeploymentFailedMessage(taskState);
          isLoading := false;
        }
      }
    }

    /** The wallet-presence effect. */
    method CheckWallet(hasWallet: bool)
      requires Valid()
      modifies this`needsWallet
      ensures Valid()
      ensures State() == AfterWalletCheck(old(State()), hasWallet)
    {
      needsWallet := !hasWallet;
    }
  }
}
