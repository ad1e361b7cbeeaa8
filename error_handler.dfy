/** The error handling helpers: the error record `handleError` builds, the attempt
    and delay schedule of `retryOperation`, and `safeFileOperation`. Logging, the clock
    and the timers are not modelled: the timestamp is a parameter, and the delays are
    returned instead of waited for. */
module ErrorHandler {
  import opened Strings
  import opened Json

  // `ErrorType` and `ErrorSeverity` are string constants; callers may pass any string.
  const Network := "NETWORK"
  const FileSystem := "FILE_SYSTEM"
  const Browser := "BROWSER"
  const Authentication := "AUTHENTICATION"
  const Validation := "VALIDATION"
  const Timeout := "TIMEOUT"
  const Unknown := "UNKNOWN"

  const Critical := "CRITICAL"
  const Error := "ERROR"
  const Warning := "WARNING"
  const Info := "INFO"

  /** `norwegianMessages`. */
  const NorwegianMessages: map<string, string> := map[
    Network := "Nettverksfeil - Sjekk internettforbindelsen",
    FileSystem := "Filfeil - Kunne ikke lese eller skrive fil",
    Browser := "Nettleserfeil - Kunne ikke starte eller bruke nettleser",
    Authentication := "Innloggingsfeil - BankID-autentisering feilet",
    Validation := "Valideringsfeil - Ugyldig dataformat",
    Timeout := "Tidsavbrudd - Operasjonen tok for lang tid",
    Unknown := "Ukjent feil"
  ]

  /** A thrown error: its `message` and `stack` properties. */
  datatype Thrown = Thrown(message: Val, stack: Val)

  /** The `errorInfo` record. */
  datatype ErrorInfo = ErrorInfo(
    timestamp: string, errorType: string, severity: string, message: Val,
    norwegianMessage: string, context: Json, stack: Val)

  /** The defaults of the optional parameters: UNKNOWN, ERROR and `{}`. */
  const DefaultType := Unknown
  const DefaultSeverity := Error
  const DefaultContext := JObject([])

  /** `norwegianMessages[errorType] || norwegianMessages.UNKNOWN`. */
  function NorwegianMessage(errorType: string): (r: string)
    ensures r != "" && r in NorwegianMessages.Values
  {
    if errorType in NorwegianMessages && NorwegianMessages[errorType] != "" then NorwegianMessages[errorType]
    else NorwegianMessages[Unknown]
  }

  /** `handleError(error, errorType, errorSeverity, context)` at time `timestamp`. */
  function HandleError(error: Thrown, errorType: string, errorSeverity: string, context: Json, timestamp: string): (r: ErrorInfo)
    ensures r.norwegianMessage != ""
    ensures r.stack != Undefined ==> errorSeverity == Critical
  {
    ErrorInfo(timestamp, errorType, errorSeverity, error.message, NorwegianMessage(errorType), context,
              if errorSeverity == Critical then error.stack else Undefined)
  }

  /** Each known type gets its own message and every other type the UNKNOWN one; the
      message is never empty. */
  lemma MessageForType(errorType: string)
    ensures errorType in NorwegianMessages ==> NorwegianMessage(errorType) == NorwegianMessages[errorType]
    ensures errorType !in NorwegianMessages ==> NorwegianMessage(errorType) == "Ukjent feil"
    ensures NorwegianMessage(errorType) in NorwegianMessages.Values && NorwegianMessage(errorType) != ""
  {
  }

  /** The record copies the type, severity, message and context unchanged, and carries
      the stack exactly when the severity is CRITICAL. */
  lemma RecordCopiesItsInputs(error: Thrown, errorType: string, errorSeverity: string, context: Json, timestamp: string)
    ensures var r := HandleError(error, errorType, errorSeverity, context, timestamp);
      r.errorType == errorType && r.severity == errorSeverity && r.message == error.message
      && r.context == context && r.timestamp == timestamp
    ensures errorSeverity == Critical ==> HandleError(error, errorType, errorSeverity, context, timestamp).stack == error.stack
    ensures errorSeverity != Critical ==> HandleError(error, errorType, errorSeverity, context, timestamp).stack == Undefined
  {
  }

  // ---------------------------------------------------------------------------
  // retryOperation

  /** What one call of the operation does: resolve with a value or reject with an error. */
  datatype Attempt<T> = Succeeded(value: T) | Failed(error: Thrown)

  /** How `retryOperation` settles. It rethrows `lastError`, which is still undefined
      (`None`) when no attempt was made. */
  datatype Retried<T> = Returned(value: T) | Threw(error: Option<Thrown>)

  const DefaultMaxRetries := 3
  const DefaultDelayMs := 1000

  /** `retryOperation(operation, maxRetries, delayMs)`. `operation(k)` is what the k-th
      call does; `calls` counts the calls made and `delays` lists, in order, the waits
      between them. */
  method RetryOperation<T>(operation: nat -> Attempt<T>, maxRetries: int, delayMs: int)
    returns (r: Retried<T>, calls: nat, delays: seq<int>)
    ensures calls <= (if maxRetries < 0 then 0 else maxRetries)
    ensures r.Returned? <==> exists k :: 1 <= k <= maxRetries && operation(k).Succeeded?
    ensures r.Returned? ==> 1 <= calls && operation(calls) == Succeeded(r.value)
    ensures forall k :: 1 <= k < calls ==> operation(k).Failed?
    ensures r.Threw? ==> calls == (if maxRetries < 1 then 0 else maxRetries)
    ensures r.Threw? && maxRetries >= 1 ==> r.error == Some(operation(maxRetries).error)
    ensures r.Threw? && maxRetries < 1 ==> r.error == None
    ensures |delays| == (if calls == 0 then 0 else calls - 1)
    ensures forall i :: 0 <= i < |delays| ==> delays[i] == delayMs * (i + 1)
  {
    var lastError: Option<Thrown> := None;
    calls := 0;
    delays := [];
    var attempt := 1;
    while attempt <= maxRetries
      invariant 1 <= attempt && calls == attempt - 1
      invariant maxRetries >= 1 ==> attempt <= maxRetries + 1
      invariant maxRetries < 1 ==> attempt == 1
      invariant forall k :: 1 <= k < attempt ==> operation(k).Failed?
      invariant attempt == 1 ==> lastError == None
      invariant attempt > 1 ==> lastError == Some(operation(attempt - 1).error)
      invariant |delays| == (if attempt == 1 then 0 else if attempt - 1 < maxRetries then attempt - 1 else maxRetries - 1)
      invariant forall i :: 0 <= i < |delays| ==> delays[i] == delayMs * (i + 1)
      decreases maxRetries - attempt
    {
      var outcome := operation(attempt);
      calls := calls + 1;
      if outcome.Succeeded? {
        return Returned(outcome.value), calls, delays;
      }
      lastError := Some(outcome.error);
      if attempt < maxRetries {
        delays := delays + [delayMs * attempt];
      }
      attempt := attempt + 1;
    }
    r := Threw(lastError);
  }

  // ---------------------------------------------------------------------------
  // safeFileOperation

  /** `safeFileOperation(fileOperation, filePath)`: the operation's value, or null
      (`None`) on failure; `logged` is the record passed to `handleError`. */
  function SafeFileOperation<T>(outcome: Attempt<T>, filePath: string, timestamp: string): (r: (Option<T>, Option<ErrorInfo>))
    ensures outcome.Succeeded? ==> r == (Some(outcome.value), None)
    ensures outcome.Failed? ==> r.0 == None && r.1.Some?
  {
    match outcome
    case Succeeded(v) => (Some(v), None)
    case Failed(e) => (None, Some(HandleError(e, FileSystem, Error, JObject([("filePath", JString(filePath))]), timestamp)))
  }

  /** A failed file operation is recorded as a FILE_SYSTEM error of severity ERROR,
      with the file message, the path as context and no stack. */
  lemma FailureIsFileSystemError<T>(e: Thrown, filePath: string, timestamp: string)
    ensures var info := SafeFileOperation<T>(Failed(e), filePath, timestamp).1.value;
      info.errorType == "FILE_SYSTEM" && info.severity == "ERROR"
      && info.norwegianMessage == "Filfeil - Kunne ikke lese eller skrive fil"
      && info.context == JObject([("filePath", JString(filePath))])
      && info.stack == Undefined && info.message == e.message
  {
  }
}
