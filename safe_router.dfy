/** The Safe backend procedures: classification of Safe Transaction Service
    records, the transaction-history query, the Safe deployment payload and
    the sponsored-relay request transform. */
module SafeRouter {
  import opened JsValues

  // ---------------------------------------------------------------------------
  // Address validation: the input rule of the transaction-history query.
  // ---------------------------------------------------------------------------

  /** A character of the class `[a-fA-F0-9]`. */
  predicate IsHexDigit(c: char)
  {
    ('0' <= c <= '9') || ('a' <= c <= 'f') || ('A' <= c <= 'F')
  }

  /** The matcher for `[a-fA-F0-9]{n}$`: exactly `n` hex digits, then end of input. */
  predicate HexRun(s: string, n: nat)
    decreases n
  {
    if n == 0 then s == ""
    else |s| > 0 && IsHexDigit(s[0]) && HexRun(s[1..], n - 1)
  }

  /** The matcher for `/^0x[a-fA-F0-9]{40}$/`. */
  predicate IsSafeAddress(s: string)
  {
    |s| >= 2 && s[0] == '0' && s[1] == 'x' && HexRun(s[2..], 40)
  }

  lemma {:induction false} HexRunIff(s: string, n: nat)
    ensures HexRun(s, n) <==> |s| == n && forall i :: 0 <= i < |s| ==> IsHexDigit(s[i])
    decreases n
  {
    if n > 0 && |s| > 0 {
      HexRunIff(s[1..], n - 1);
      assert forall i :: 1 <= i < |s| ==> s[i] == s[1..][i - 1];
    }
  }

  /** The validator accepts exactly "0x" followed by 40 characters of [0-9a-fA-F]. */
  lemma SafeAddressIff(s: string)
    ensures IsSafeAddress(s) <==>
              |s| == 42 && s[..2] == "0x" && forall i :: 2 <= i < 42 ==> IsHexDigit(s[i])
  {
    if |s| >= 2 {
      HexRunIff(s[2..], 40);
      assert forall i :: 2 <= i < |s| ==> s[i] == s[2..][i - 2];
    }
  }

  // ---------------------------------------------------------------------------
  // Transaction records.
  // ---------------------------------------------------------------------------

  /** The `type` of a record from the Safe Transaction Service. */
  datatype ServiceTxType = EthereumTransaction | ModuleTransaction | MultisigTransaction

  datatype TokenInfo = TokenInfo(address: string, symbol: string, decimals: int)

  /** The decoded call of a record; the source's field is `method`. */
  datatype DataDecoded = DataDecoded(methodName: string)

  /** A record of the service's `all-transactions` listing. */
  datatype ServiceTx = ServiceTx(
    txType: ServiceTxType,
    txHash: string,
    executionDate: string,
    from: Option<string>,
    to: Option<string>,
    value: Option<string>,
    tokenInfo: Option<TokenInfo>,
    dataDecoded: Option<DataDecoded>,
    safeTxHash: Option<string>,
    isExecuted: Option<bool>)

  /** The classification the dashboard displays. */
  datatype TxKind = Incoming | Outgoing | Module | Creation

  /** The application's simplified transaction item. */
  datatype TransactionItem = TransactionItem(
    kind: TxKind,
    hash: string,
    timestamp: int,
    from: Option<string>,
    to: Option<string>,
    value: Option<string>,
    tokenAddress: Option<string>,
    tokenSymbol: Option<string>,
    tokenDecimals: Option<int>,
    methodName: Option<string>)

  /** `tx.isExecuted` is truthy. */
  predicate Executed(tx: ServiceTx)
  {
    tx.isExecuted == Some(true)
  }

  /** The records the mapper drops: multisig transactions not executed. */
  predicate Skipped(tx: ServiceTx)
  {
    tx.txType == MultisigTransaction && !Executed(tx)
  }

  /** The mapper's classification of the record's kind. */
  function Classify(tx: ServiceTx): (k: TxKind)
    ensures k == Outgoing || k == Module
    ensures tx.txType == EthereumTransaction ==>
              (k == Outgoing <==> (Truthy(tx.value) && tx.value.value != "0"))
    ensures tx.txType == ModuleTransaction ==> k == Module
    ensures tx.txType == MultisigTransaction ==> (k == Module <==> Executed(tx))
  {
    if tx.txType == EthereumTransaction then
      (if Truthy(tx.value) && tx.value.value != "0" then Outgoing else Module)
    else if tx.txType == MultisigTransaction then
      (if Executed(tx) then Module else Outgoing)
    else Module
  }

  /** Maps one service record to a transaction item, or to `None` for an
      unexecuted multisig record. `parseDate` stands for
      `new Date(s).getTime()`. */
  function MapTxItem(tx: ServiceTx, parseDate: string -> int): (r: Option<TransactionItem>)
    ensures r.None? <==> Skipped(tx)
    ensures r.Some? ==> r.value.kind != Incoming && r.value.kind != Creation
    ensures r.Some? && tx.txType != EthereumTransaction ==> r.value.kind == Module
    ensures r.Some? && tx.txType == EthereumTransaction ==>
              (r.value.kind == Outgoing <==> (Truthy(tx.value) && tx.value.value != "0"))
    ensures r.Some? ==>
              && r.value.hash == tx.txHash
              && r.value.timestamp == parseDate(tx.executionDate)
              && r.value.from == tx.from && r.value.to == tx.to && r.value.value == tx.value
              && (tx.tokenInfo.Some? ==>
                    && r.value.tokenAddress == Some(tx.tokenInfo.value.address)
                    && r.value.tokenSymbol == Some(tx.tokenInfo.value.symbol)
                    && r.value.tokenDecimals == Some(tx.tokenInfo.value.decimals))
              && (tx.tokenInfo.None? ==>
                    r.value.tokenAddress.None? && r.value.tokenSymbol.None? && r.value.tokenDecimals.None?)
              && (tx.dataDecoded.Some? <==> r.value.methodName.Some?)
              && (tx.dataDecoded.Some? ==> r.value.methodName.value == tx.dataDecoded.value.methodName)
  {
    var kind := Classify(tx);
    if tx.txType == MultisigTransaction && !Executed(tx) then None
    else
      Some(TransactionItem(
        kind, tx.txHash, parseDate(tx.executionDate), tx.from, tx.to, tx.value,
        if tx.tokenInfo.Some? then Some(tx.tokenInfo.value.address) else None,
        if tx.tokenInfo.Some? then Some(tx.tokenInfo.value.symbol) else None,
        if tx.tokenInfo.Some? then Some(tx.tokenInfo.value.decimals) else None,
        if tx.dataDecoded.Some? then Some(tx.dataDecoded.value.methodName) else None))
  }

  /** `.filter(tx => tx !== null)`: keeps the present values, in order. */
  function DropNulls<T>(s: seq<Option<T>>): (r: seq<T>)
    ensures |r| <= |s|
    ensures forall x :: x in r ==> Some(x) in s
    ensures forall i :: 0 <= i < |s| && s[i].Some? ==> s[i].value in r
    ensures (forall i :: 0 <= i < |s| ==> s[i].Some?) ==> |r| == |s|
    decreases |s|
  {
    if |s| == 0 then []
    else if s[0].Some? then [s[0].value] + DropNulls(s[1..])
    else DropNulls(s[1..])
  }

  /** Filtering distributes over concatenation, so the output keeps the order
      of the input and each record contributes its own item, or nothing. */
  lemma {:induction false} DropNullsAppend<T>(s: seq<Option<T>>, t: seq<Option<T>>)
    ensures DropNulls(s + t) == DropNulls(s) + DropNulls(t)
    decreases |s|
  {
    if |s| > 0 {
      assert (s + t)[1..] == s[1..] + t;
      DropNullsAppend(s[1..], t);
    } else {
      assert s + t == t;
    }
  }

  /** `results.map(mapTxItem).filter(notNull)`. */
  function MapResults(results: seq<ServiceTx>, parseDate: string -> int): seq<TransactionItem>
  {
    DropNulls(seq(|results|, i requires 0 <= i < |results| => MapTxItem(results[i], parseDate)))
  }

  /** The mapped list of one record is its item, or empty when it is skipped. */
  lemma MapResultsSingle(tx: ServiceTx, parseDate: string -> int)
    ensures MapResults([tx], parseDate) ==
              if Skipped(tx) then [] else [MapTxItem(tx, parseDate).value]
  {
    var m := seq(1, i requires 0 <= i < 1 => MapTxItem([tx][i], parseDate));
    assert m[1..] == [];
  }

  /** Mapping distributes over concatenation of the results list. */
  lemma MapResultsAppend(a: seq<ServiceTx>, b: seq<ServiceTx>, parseDate: string -> int)
    ensures MapResults(a + b, parseDate) == MapResults(a, parseDate) + MapResults(b, parseDate)
  {
    var ma := seq(|a|, i requires 0 <= i < |a| => MapTxItem(a[i], parseDate));
    var mb := seq(|b|, i requires 0 <= i < |b| => MapTxItem(b[i], parseDate));
    var mab := seq(|a + b|, i requires 0 <= i < |a + b| => MapTxItem((a + b)[i], parseDate));
    assert mab == ma + mb;
    DropNullsAppend(ma, mb);
  }

  /** At most one item per record; every item comes from an unskipped record;
      every unskipped record yields its item. */
  lemma MapResultsBounds(results: seq<ServiceTx>, parseDate: string -> int)
    ensures |MapResults(results, parseDate)| <= |results|
    ensures forall x :: x in MapResults(results, parseDate) ==>
              exists i :: 0 <= i < |results| && !Skipped(results[i]) && MapTxItem(results[i], parseDate) == Some(x)
    ensures forall i :: 0 <= i < |results| && !Skipped(results[i]) ==>
              MapTxItem(results[i], parseDate).value in MapResults(results, parseDate)
    ensures (forall i :: 0 <= i < |results| ==> !Skipped(results[i])) ==>
              |MapResults(results, parseDate)| == |results|
  {
    var m := seq(|results|, i requires 0 <= i < |results| => MapTxItem(results[i], parseDate));
    forall x | x in MapResults(results, parseDate)
      ensures exists i :: 0 <= i < |results| && !Skipped(results[i]) && MapTxItem(results[i], parseDate) == Some(x)
    {
      var i :| 0 <= i < |m| && m[i] == Some(x);
    }
    forall i | 0 <= i < |results| && !Skipped(results[i])
      ensures MapTxItem(results[i], parseDate).value in MapResults(results, parseDate)
    {
      assert m[i] == MapTxItem(results[i], parseDate);
    }
  }

  /** What the service answered, as far as the query looks at it. */
  datatype ServiceResponse =
    | FetchFailed                                  // `fetch` rejected
    | NotOk(status: int)                           // `!response.ok`
    | Body(results: Option<seq<ServiceTx>>)        // parsed JSON; `None`: no `results`

  datatype QueryError =
    | BadRequest(message: string)                  // input validation failed
    | InternalServerError(message: string)

  const INVALID_ADDRESS := "Invalid Ethereum address"
  const HISTORY_FETCH_FAILED := "Failed to fetch transaction history from Safe service."

  /** The `getTransactions` query. */
  function GetTransactions(safeAddress: string, response: ServiceResponse, parseDate: string -> int)
    : (r: Result<seq<TransactionItem>, QueryError>)
    ensures !IsSafeAddress(safeAddress) <==> r == Failure(BadRequest(INVALID_ADDRESS))
    ensures IsSafeAddress(safeAddress) && (response.FetchFailed? || response.NotOk?) ==>
              r == Failure(InternalServerError(HISTORY_FETCH_FAILED))
    ensures IsSafeAddress(safeAddress) && response.Body? && response.results.None? ==> r == Success([])
    ensures IsSafeAddress(safeAddress) && response.Body? && response.results.Some? ==>
              r == Success(MapResults(response.results.value, parseDate)) && |r.value| <= |response.results.value|
  {
    if !IsSafeAddress(safeAddress) then Failure(BadRequest(INVALID_ADDRESS))
    else match response
      case FetchFailed => Failure(InternalServerError(HISTORY_FETCH_FAILED))
      case NotOk(_) => Failure(InternalServerError(HISTORY_FETCH_FAILED))
      case Body(None) => Success([])
      case Body(Some(results)) =>
        MapResultsBounds(results, parseDate);
        Success(MapResults(results, parseDate))
  }

  datatype Result<+T, +E> = Success(value: T) | Failure(error: E)

  // ---------------------------------------------------------------------------
  // Deployment payload.
  // ---------------------------------------------------------------------------

  /** The Safe proxy factory on Base. */
  const SAFE_PROXY_FACTORY := "0x69f4D1788e39c87893C980c06EdF4b7f686e2938"

  /** The placeholder predicted address. */
  const ZERO_ADDRESS := "0x0000000000000000000000000000000000000000"

  /** The ABI-encoded factory call up to the owner word; the owner's 40 hex
      digits complete it. */
  const DEPLOY_CALL_PREFIX := "0xa97ab18a00000000000000000000000000000000000000000000000000000000000000e0000000000000000000000000000000000000000000000000000000000000000100000000000000000000000000000000000000000000000000000000000000000000000000000000000000000000000000000000000000000000000000000180000000000000000000000000000000000000000000000000000000000000000000000000000000000000000000000000000000000000000000000000000000000000000000000000000000000000000000000000000000000000000000000000000000000000000000000000000000000000000000000000000000000000010000000000000000000000003e5c63644e683549055b9be8653de26e0b4cd36e00000000000000000000000000000000000000000000000000000000000000000000000000000000000000000000000000000000000000000000000000000024001ae22c1af84b3d678210e41b5a6d5aea0bb286f2a9b628a7818868e4790142000000000000000000000000000000000000000000000000000000000000000000000000000000000000000000000000000000000000000000000000000001000000000000000000000000"

  datatype DeploymentPayload = DeploymentPayload(to: string, data: string, value: string, predicted: string)

  /** The `getDeploymentPayload` mutation: fixed target, value and predicted
      address; call data is the prefix followed by `owner.slice(2)`. */
  function GetDeploymentPayload(owner: string): (p: DeploymentPayload)
    ensures p.to == SAFE_PROXY_FACTORY && p.value == "0" && p.predicted == ZERO_ADDRESS
    ensures StartsWith(p.data, DEPLOY_CALL_PREFIX)
    ensures p.data[|DEPLOY_CALL_PREFIX|..] == SliceFrom(owner, 2)
    ensures |owner| >= 2 ==> p.data == DEPLOY_CALL_PREFIX + owner[2..]
    ensures |owner| >= 2 ==> |p.data| == |DEPLOY_CALL_PREFIX| + |owner| - 2
    ensures |owner| < 2 ==> p.data == DEPLOY_CALL_PREFIX
  {
    DeploymentPayload(SAFE_PROXY_FACTORY, DEPLOY_CALL_PREFIX + SliceFrom(owner, 2), "0", ZERO_ADDRESS)
  }

  /** Reads the owner back out of the call data. */
  function OwnerOfCallData(data: string): string
  {
    if |data| >= |DEPLOY_CALL_PREFIX| then "0x" + data[|DEPLOY_CALL_PREFIX|..] else ""
  }

  /** The call data carries the owner: for an owner written with its "0x"
      prefix, it can be read back. */
  lemma OwnerRoundTrip(owner: string)
    requires StartsWith(owner, "0x")
    ensures OwnerOfCallData(GetDeploymentPayload(owner).data) == owner
  {
    var d := GetDeploymentPayload(owner).data;
    assert d[|DEPLOY_CALL_PREFIX|..] == owner[2..];
    assert owner == owner[..2] + owner[2..];
  }

  /** For a valid owner address the call data is exactly 40 characters longer
      than the prefix. */
  lemma CallDataLength(owner: string)
    requires IsSafeAddress(owner)
    ensures |GetDeploymentPayload(owner).data| == |DEPLOY_CALL_PREFIX| + 40
  {
    SafeAddressIff(owner);
  }

  // ---------------------------------------------------------------------------
  // Sponsored relay.
  // ---------------------------------------------------------------------------

  datatype RelayRequest = RelayRequest(chainId: int, target: string, data: string, value: string)

  /** The relay mutation's input. */
  datatype RelayInput = RelayInput(request: RelayRequest, signature: string)

  /** The argument handed to the relay's `sponsoredCall`. */
  datatype SponsoredCall = SponsoredCall(chainId: int, target: string, data: string, value: string)

  /** An error the relay raised; it is re-thrown unchanged. */
  datatype RelayError = RelayError(message: Option<string>)

  /** The `relaySponsoredTransaction` mutation. `sponsoredCall` is the relay
      service: it is called once, with the request's fields, and its task id or
      error is returned as is. */
  function RelaySponsoredTransaction(input: RelayInput,
                                     sponsoredCall: SponsoredCall -> Result<string, RelayError>)
    : (r: Result<string, RelayError>)
    ensures r == sponsoredCall(SponsoredCall(input.request.chainId, input.request.target,
                                             input.request.data, input.request.value))
  {
    var call := SponsoredCall(input.request.chainId, input.request.target, input.request.data, input.request.value);
    match sponsoredCall(call)
    case Success(taskId) => Success(taskId)
    case Failure(e) => Failure(e)
  }

  /** The signature is not forwarded: two inputs that differ only in their
      signature get the same answer. */
  lemma RelayIgnoresSignature(request: RelayRequest, sig1: string, sig2: string,
                              sponsoredCall: SponsoredCall -> Result<string, RelayError>)
    ensures RelaySponsoredTransaction(RelayInput(request, sig1), sponsoredCall)
         == RelaySponsoredTransaction(RelayInput(request, sig2), sponsoredCall)
  {
  }
}
