/**
 * Exceptions as values, and ExceptionExtension.CreateErrorText, which renders an exception and
 * every inner exception below it as one "Ошибка: <message>" line each.
 */
module Errors {
  import opened Wrappers
  import opened Text

  /** The .NET exception types the program raises or catches. */
  datatype Kind =
    | InvalidOperation                 // InvalidOperationException, the program's own wrapper
    | ArgumentNull(paramName: string)  // ArgumentNullException from a null guard
    | Argument(paramName: string)      // ArgumentException (empty-string guard, duplicate dictionary key)
    | ArgumentOutOfRange               // e.g. an IPEndPoint port outside 0..65535
    | Format                           // a failed Parse
    | Overflow                         // int.Parse of digits outside the 32-bit range
    | InvalidCast                      // a settings value read with the wrong type
    | SettingsSaveLoadFault            // SettingsSaveLoadFaultException
    | TaskCanceled                     // TaskCanceledException
    | Foreign                          // raised inside a collaborator outside the model

  /** An exception: its type, its Message and its InnerException chain. */
  datatype Exception = Exception(kind: Kind, message: string, inner: Option<Exception>)

  datatype Result<+T> = Success(value: T) | Failure(error: Exception)

  /** Completion of a call that returns nothing: normal return or a thrown exception. */
  datatype Outcome = Pass | Fail(error: Exception)

  /** `new InvalidOperationException(message)`. */
  function Invalid(message: string): Exception
  {
    Exception(InvalidOperation, message, None)
  }

  /** `new InvalidOperationException(message, cause)`: error chaining that keeps the cause. */
  function Wrap(message: string, cause: Exception): Exception
  {
    Exception(InvalidOperation, message, Some(cause))
  }

  /**
   * How a catch block words the exception it rethrows: the infrastructure copy of the session
   * code uses the fixed text, the copy nested in RouterControlService appends the cause's message.
   */
  datatype Wording = Plain | WithCause

  /** `new InvalidOperationException(text, cause)` for a catch block with the given wording. */
  function Rethrow(wording: Wording, message: string, cause: Exception): (e: Exception)
    ensures e.kind == InvalidOperation && e.inner == Some(cause)
    ensures wording.Plain? ==> e.message == message
    ensures wording.WithCause? ==> e.message == message + "\r\nОшибка: " + cause.message
    ensures e.message[..|message|] == message
  {
    match wording
    case Plain => Wrap(message, cause)
    case WithCause => Wrap(message + "\r\nОшибка: " + cause.message, cause)
  }

  /** The ArgumentNullException a null guard throws for parameter `name`. */
  function NullArgument(name: string): Exception
  {
    Exception(ArgumentNull(name), "Value cannot be null. (Parameter '" + name + "')", None)
  }

  /** The ArgumentException an empty-string guard throws for parameter `name`. */
  function EmptyArgument(name: string): Exception
  {
    Exception(Argument(name), "The value cannot be an empty string. (Parameter '" + name + "')", None)
  }

  /** The ArgumentException Dictionary.Add throws for a key it already holds. */
  function DuplicateKey(key: string): Exception
  {
    Exception(Argument("key"), "An item with the same key has already been added. Key: " + key, None)
  }

  // ---- the inner-exception chain ----

  /** Number of exceptions in the chain that starts at `e`. */
  function Depth(e: Exception): (n: nat)
    ensures n >= 1
  {
    match e.inner
    case None => 1
    case Some(i) => 1 + Depth(i)
  }

  /** The exception reached from `e` by following InnerException `k` times. */
  function Nth(e: Exception, k: nat): Exception
    requires k < Depth(e)
  {
    if k == 0 then e else Nth(e.inner.value, k - 1)
  }

  const Placeholder := "Текст ошибки не задан."

  /** The line CreateErrorText writes for one exception of the chain. */
  function Line(e: Exception): string
  {
    "Ошибка: " + (if IsNullOrWhiteSpace(e.message) then Placeholder else e.message) + NewLine
  }

  /** The text written for the chain from `from` down to the innermost exception. */
  function ChainText(from: Option<Exception>): string
  {
    match from
    case None => ""
    case Some(e) => Line(e) + ChainText(e.inner)
  }

  /** The lines of the chain, outermost first: line k belongs to the exception k steps down. */
  function Lines(e: Exception): (lines: seq<string>)
    ensures |lines| == Depth(e)
  {
    seq(Depth(e), k requires 0 <= k < Depth(e) => Line(Nth(e, k)))
  }

  /** The text is one line per exception of the chain, outermost first, nothing else. */
  lemma {:induction false} TextIsOneLinePerException(e: Exception)
    ensures ChainText(Some(e)) == Concat(Lines(e))
    decreases Depth(e)
  {
    match e.inner
    case None =>
      assert Lines(e) == [Line(e)];
      ConcatPrepend(Line(e), []);
    case Some(i) =>
      TextIsOneLinePerException(i);
      assert Lines(e) == [Line(e)] + Lines(i) by {
        forall k | 0 < k < Depth(e)
          ensures Lines(e)[k] == Lines(i)[k - 1]
        {
        }
      }
      ConcatPrepend(Line(e), Lines(i));
  }

  /**
   * CreateErrorText: a null argument throws; otherwise every exception of the chain,
   * from the outermost to the innermost, contributes its line.
   */
  method CreateErrorText(exception: Option<Exception>) returns (r: Result<string>)
    ensures exception.None? ==> r == Failure(NullArgument("exception"))
    ensures exception.Some? ==> r == Success(ChainText(exception))
  {
    if exception.None? {
      return Failure(NullArgument("exception"));
    }
    var builder := "";
    var current := exception;
    while current.Some?
      invariant builder + ChainText(current) == ChainText(exception)
      decreases current
    {
      var message := if IsNullOrWhiteSpace(current.value.message) then Placeholder else current.value.message;
      builder := builder + "Ошибка: " + message + NewLine;
      current := current.value.inner;
    }
    assert builder + "" == builder;
    return Success(builder);
  }
}
