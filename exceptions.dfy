/**
 * The order-exception hierarchy of `exception.py`: the fields every
 * `BaseOrderException` stores, the fixed code of each subclass, the HTTP
 * status each one carries, and the two data exceptions that sit outside the
 * hierarchy.
 */
module Exceptions {
  import opened Wrappers

  /**
   * The values an `api_response` argument can hold, as far as the
   * constructor can tell them apart: what matters is Python truthiness.
   */
  datatype PyValue =
    | PyNone
    | PyBool(b: bool)
    | PyInt(i: int)
    | PyStr(s: string)
    | PyList(items: seq<string>)
    | PyDict(entries: map<string, string>)

  /** Python truthiness: `None`, `False`, `0` and empty containers are falsy. */
  predicate Truthy(v: PyValue) {
    match v
    case PyNone => false
    case PyBool(b) => b
    case PyInt(i) => i != 0
    case PyStr(s) => s != []
    case PyList(items) => items != []
    case PyDict(entries) => entries != map[]
  }

  /** The empty dictionary `{}` that replaces a falsy `api_response`. */
  const EmptyDict: PyValue := PyDict(map[])

  /** The status code `BaseOrderException` uses when none is given. */
  const DefaultStatusCode: int := 400

  /** The `detail` payload handed to `HTTPException`. */
  datatype Detail = Detail(message: string, code: int, apiResponse: PyValue)

  /** The state of a constructed `BaseOrderException`. */
  datatype OrderException = OrderException(
    message: string,
    code: int,
    apiResponse: PyValue,
    statusCode: int,
    detail: Detail)

  /**
   * `BaseOrderException.__init__`: message and code are stored as given,
   * `api_response` is stored as given when truthy and as `{}` otherwise, and
   * the detail payload keeps the raw, non-defaulted `api_response`.
   */
  function NewBaseOrderException(message: string, code: int, apiResponse: PyValue, statusCode: int): (e: OrderException)
    ensures e.message == message && e.code == code && e.statusCode == statusCode
    ensures Truthy(apiResponse) ==> e.apiResponse == apiResponse
    ensures !Truthy(apiResponse) ==> e.apiResponse == EmptyDict
    ensures Truthy(e.apiResponse) || e.apiResponse == EmptyDict
    ensures e.detail == Detail(message, code, apiResponse)
  {
    var stored := if Truthy(apiResponse) then apiResponse else EmptyDict;
    OrderException(message, code, stored, statusCode, Detail(message, code, apiResponse))
  }

  /**
   * The stored `api_response` and the one in the detail payload differ
   * exactly when the argument was falsy but not already `{}` (for example
   * `None`, `0` or `""`).
   */
  lemma StoredResponseDiffersFromDetail(message: string, code: int, apiResponse: PyValue, statusCode: int)
    ensures var e := NewBaseOrderException(message, code, apiResponse, statusCode);
            e.apiResponse != e.detail.apiResponse <==> !Truthy(apiResponse) && apiResponse != EmptyDict
  {
  }

  /** The `BaseOrderException` subclasses declared in `exception.py`. */
  datatype Kind =
    | InvalidSecretKeyInL1Chain
    | EmptyOrder
    | TooHighSlippage
    | TooLowSlippage
    | NoSuchTicker
    | TooSmallOrderAmount
    | ApiLimitExceeded
    | MaxAccountsReached
    | DuplicateNickname
    | NoSuchAccountByProvidedNickName
    | NoSuchAccountByProvidedTelegramId
    | CannotDeleteAllAccounts
    | InvalidSecretKey
    | SendUsdc
    | InsufficientSpotBalance
    | InsufficientPerpBalance
    | NoSuchAccountByProvidedPublicKey
    | RebalanceAccountAlreadyExists
    | InsufficientBalance
    | InvalidFilter
    | UnhandledError

  /**
   * The code each subclass passes to `BaseOrderException`: a four-digit code,
   * with 9999 reserved for `UnhandledErrorException`.
   */
  function Code(k: Kind): (c: int)
    ensures 1000 <= c <= 9999
    ensures c == 9999 <==> k == UnhandledError
  {
    match k
    case InvalidSecretKeyInL1Chain => 1000
    case EmptyOrder => 1001
    case TooHighSlippage => 1002
    case TooLowSlippage => 1003
    case NoSuchTicker => 1004
    case TooSmallOrderAmount => 1005
    case ApiLimitExceeded => 3000
    case MaxAccountsReached => 3001
    case DuplicateNickname => 3002
    case NoSuchAccountByProvidedNickName => 3003
    case NoSuchAccountByProvidedTelegramId => 3004
    case CannotDeleteAllAccounts => 3005
    case InvalidSecretKey => 3006
    case SendUsdc => 3007
    case InsufficientSpotBalance => 3008
    case InsufficientPerpBalance => 3009
    case NoSuchAccountByProvidedPublicKey => 3010
    case RebalanceAccountAlreadyExists => 3011
    case InsufficientBalance => 3100
    case InvalidFilter => 7000
    case UnhandledError => 9999
  }

  /**
   * The subclasses whose constructor takes a `status_code` and forwards it;
   * `ApiLimitExceededException`, which forces 503, is not among them.
   */
  predicate ForwardsStatus(k: Kind): (forwards: bool)
    ensures forwards ==> k != ApiLimitExceeded
  {
    k in {TooLowSlippage, NoSuchTicker, TooSmallOrderAmount,
          InsufficientSpotBalance, InsufficientPerpBalance, InsufficientBalance}
  }

  /** The status a subclass carries when no `status_code` is passed. */
  function DefaultStatus(k: Kind): (status: int)
    ensures status == DefaultStatusCode <==> k != ApiLimitExceeded
    ensures k == ApiLimitExceeded ==> status == 503
  {
    if k == ApiLimitExceeded then 503 else DefaultStatusCode
  }

  /**
   * The subclass that owns a code, if any. No two subclasses share a code,
   * so the answer is unique; its absence means no subclass uses the code.
   */
  function KindOfCode(code: int): (r: Option<Kind>)
    ensures forall k :: r == Some(k) <==> Code(k) == code
  {
    match code
    case 1000 => Some(InvalidSecretKeyInL1Chain)
    case 1001 => Some(EmptyOrder)
    case 1002 => Some(TooHighSlippage)
    case 1003 => Some(TooLowSlippage)
    case 1004 => Some(NoSuchTicker)
    case 1005 => Some(TooSmallOrderAmount)
    case 3000 => Some(ApiLimitExceeded)
    case 3001 => Some(MaxAccountsReached)
    case 3002 => Some(DuplicateNickname)
    case 3003 => Some(NoSuchAccountByProvidedNickName)
    case 3004 => Some(NoSuchAccountByProvidedTelegramId)
    case 3005 => Some(CannotDeleteAllAccounts)
    case 3006 => Some(InvalidSecretKey)
    case 3007 => Some(SendUsdc)
    case 3008 => Some(InsufficientSpotBalance)
    case 3009 => Some(InsufficientPerpBalance)
    case 3010 => Some(NoSuchAccountByProvidedPublicKey)
    case 3011 => Some(RebalanceAccountAlreadyExists)
    case 3100 => Some(InsufficientBalance)
    case 7000 => Some(InvalidFilter)
    case 9999 => Some(UnhandledError)
    case _ => None
  }

  /** No two `BaseOrderException` subclasses of `exception.py` share a code. */
  lemma CodesAreDistinct(k1: Kind, k2: Kind)
    requires Code(k1) == Code(k2)
    ensures k1 == k2
  {
  }

  /**
   * Constructing subclass `k`, as `k(message, api_response[, status_code])`.
   * Only the subclasses that declare a `status_code` parameter accept one;
   * without it they use 400, `ApiLimitExceededException` always uses 503
   * and every other subclass 400.
   */
  function Raise(k: Kind, message: string, apiResponse: PyValue, statusArg: Option<int>): (e: OrderException)
    requires statusArg.Some? ==> ForwardsStatus(k)
    ensures e.message == message && e.code == Code(k)
    ensures statusArg.Some? ==> e.statusCode == statusArg.value
    ensures statusArg.None? ==> e.statusCode == DefaultStatus(k)
    ensures e.detail == Detail(message, Code(k), apiResponse)
    ensures Truthy(apiResponse) ==> e.apiResponse == apiResponse
    ensures !Truthy(apiResponse) ==> e.apiResponse == EmptyDict
    ensures KindOfCode(e.code) == Some(k)
  {
    var status := if statusArg.Some? then statusArg.value else DefaultStatus(k);
    NewBaseOrderException(message, Code(k), apiResponse, status)
  }

  /**
   * `MarketDataException` and `CandleDataException`: they derive from
   * `BaseException`, not from `BaseOrderException`, so they carry no status
   * and their code is only the second positional argument.
   */
  datatype DataErrorKind = MarketDataError | CandleDataError

  /** The positional arguments a data exception hands to `BaseException`. */
  datatype BareException = BareException(message: string, code: int, apiResponse: PyValue)

  /** Constructing a data exception; its code is used by no order exception. */
  function RaiseDataError(k: DataErrorKind, message: string, apiResponse: PyValue): (e: BareException)
    ensures e.message == message && e.apiResponse == apiResponse
    ensures e.code == (if k == MarketDataError then 9000 else 9001)
    ensures KindOfCode(e.code) == None
  {
    var code := match k case MarketDataError => 9000 case CandleDataError => 9001;
    BareException(message, code, apiResponse)
  }
}
