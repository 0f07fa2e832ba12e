/**
 * `api/exception.py`: three exception classes declared locally beside the
 * ones of `exception.py`, and `get_exception_by_code`, which picks an
 * exception class from an error code with a default.
 */
module ApiExceptions {
  import opened Wrappers
  import Exceptions

  /**
   * The exception classes `get_exception_by_code` can select: the three
   * declared in `api/exception.py`, or a class imported from `exception.py`.
   */
  datatype ApiExceptionClass =
    | LocalApiLimitExceeded
    | LocalNoSuchAccountByProvidedNickName
    | LocalNoSuchAccountByProvidedTelegramId
    | Imported(kind: Exceptions.Kind)

  /** The code each class passes to `BaseOrderException`; it is always a code some class of `exception.py` owns too. */
  function ClassCode(c: ApiExceptionClass): (code: int)
    ensures Exceptions.KindOfCode(code).Some?
  {
    match c
    case LocalApiLimitExceeded => 3000
    case LocalNoSuchAccountByProvidedNickName => 3003
    case LocalNoSuchAccountByProvidedTelegramId => 3004
    case Imported(k) => Exceptions.Code(k)
  }

  /** The HTTP status each class carries: 503 for the local API-limit class, 400 for the two local account classes. */
  function ClassStatus(c: ApiExceptionClass): (status: int)
    ensures status == 503 <==> c == LocalApiLimitExceeded || c == Imported(Exceptions.ApiLimitExceeded)
    ensures status != 503 ==> status == Exceptions.DefaultStatusCode
  {
    match c
    case LocalApiLimitExceeded => 503
    case LocalNoSuchAccountByProvidedNickName => Exceptions.DefaultStatusCode
    case LocalNoSuchAccountByProvidedTelegramId => Exceptions.DefaultStatusCode
    case Imported(k) => Exceptions.DefaultStatus(k)
  }

  /**
   * Each local class duplicates a class of `exception.py`: same code and
   * same status.
   */
  function CoreCounterpart(c: ApiExceptionClass): (k: Exceptions.Kind)
    ensures ClassCode(c) == Exceptions.Code(k)
    ensures ClassStatus(c) == Exceptions.DefaultStatus(k)
  {
    match c
    case LocalApiLimitExceeded => Exceptions.ApiLimitExceeded
    case LocalNoSuchAccountByProvidedNickName => Exceptions.NoSuchAccountByProvidedNickName
    case LocalNoSuchAccountByProvidedTelegramId => Exceptions.NoSuchAccountByProvidedTelegramId
    case Imported(k) => k
  }

  /** The class `get_exception_by_code` falls back to. */
  const DefaultClass: ApiExceptionClass := Imported(Exceptions.UnhandledError)

  /**
   * The `exception_mapping` dictionary of `get_exception_by_code`: four
   * codes, each mapped to a class that carries that very code.
   */
  function ExceptionMapping(): (mapping: map<int, ApiExceptionClass>)
    ensures mapping.Keys == {3000, 3003, 3004, 9999}
    ensures forall code :: code in mapping ==> ClassCode(mapping[code]) == code
  {
    map[
      3000 := LocalApiLimitExceeded,
      3003 := LocalNoSuchAccountByProvidedNickName,
      3004 := LocalNoSuchAccountByProvidedTelegramId,
      9999 := Imported(Exceptions.UnhandledError)]
  }

  /**
   * The class selection of `get_exception_by_code`: the table entry for the
   * code, or `UnhandledErrorException` for any other code. The selected
   * class's own code is the requested one whenever the code is in the table.
   */
  function ExceptionClassForCode(code: int): (c: ApiExceptionClass)
    ensures code in ExceptionMapping() ==> ClassCode(c) == code
    ensures code !in ExceptionMapping() ==> c == DefaultClass
    ensures c == DefaultClass <==> code == 9999 || code !in {3000, 3003, 3004}
    ensures ClassCode(c) == code || ClassCode(c) == 9999
  {
    var mapping := ExceptionMapping();
    if code in mapping then mapping[code] else DefaultClass
  }

  /** The four entries of the selection table. */
  lemma SelectionTable()
    ensures ExceptionClassForCode(3000) == LocalApiLimitExceeded
    ensures ExceptionClassForCode(3003) == LocalNoSuchAccountByProvidedNickName
    ensures ExceptionClassForCode(3004) == LocalNoSuchAccountByProvidedTelegramId
    ensures ExceptionClassForCode(9999) == Imported(Exceptions.UnhandledError)
  {
  }

  /**
   * Constructing one of the selectable classes as `cls(message, api_response)`:
   * it carries the class's code and status.
   */
  function RaiseApi(c: ApiExceptionClass, message: string, apiResponse: Exceptions.PyValue): (e: Exceptions.OrderException)
    ensures e.code == ClassCode(c) && e.statusCode == ClassStatus(c)
    ensures e.message == message
    ensures e.detail == Exceptions.Detail(message, ClassCode(c), apiResponse)
  {
    Exceptions.Raise(CoreCounterpart(c), message, apiResponse, None)
  }
}
