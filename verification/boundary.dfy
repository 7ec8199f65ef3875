/**
 * The error layer of the C/C++ boundary of the clingo engine: the status codes
 * every fallible C call returns, the exceptions the C++ side raises, the text
 * attached to each message code, `handleError` (status code to exception) and
 * the two catch-all macros that turn exceptions back into status codes.
 */
module Boundary {

  datatype Option<+T> = None | Some(value: T)

  /** `clingo_error_t`. `Unlisted(raw)` stands for a value `raw` that none of
      the enumerators has (a caller-supplied callback may return any
      integer); a value an enumerator has is always written as that
      enumerator, so `Success` is the only code whose value is 0. */
  datatype ErrorCode =
    | Success
    | Runtime
    | Logic
    | BadAlloc
    | Unknown
    | Fatal
    | Unlisted(raw: int)

  /** The warning half of `clingo_message_code_t`. */
  datatype WarningCode =
    | OperationUndefined
    | AtomUndefined
    | FileIncluded
    | VariableUnbounded
    | GlobalVariable

  /** `clingo_message_code_t`: an error code or a warning code. */
  datatype MessageCode = ErrorMessage(code: ErrorCode) | WarningMessage(warning: WarningCode)

  /** The native exceptions that cross this layer. `ExpectViolation` is what
      `clingo_expect` throws (its definition is not part of this model);
      `UserException` is an exception of the caller's own type, known only by
      its identity. */
  datatype Exc =
    | RuntimeError(what: string)
    | LogicError(what: string)
    | BadAllocError
    | InvalidArgument(what: string)
    | LengthError(what: string)
    | ClingoError(code: ErrorCode)
    | ExpectViolation
    | UserException(id: nat)

  /** How a C++ computation ends: with a value, or by raising an exception. */
  datatype Outcome<+T> = Done(value: T) | Threw(exc: Exc)

  /** The status codes that `handleError` turns into an exception. */
  predicate IsFailure(code: ErrorCode) {
    code.Runtime? || code.Logic? || code.BadAlloc? || code.Unknown? || code.Fatal?
  }

  /** `clingo_message_code_str`: the fixed text of each message code. `Fatal`
      and unlisted codes have no case of their own. */
  function MessageCodeStr(code: MessageCode): (text: string)
    ensures text == "unknown message code" <==>
              code == ErrorMessage(Fatal) || (code.ErrorMessage? && code.code.Unlisted?)
  {
    match code
    case ErrorMessage(Success) => "success"
    case ErrorMessage(Runtime) => "runtime error"
    case ErrorMessage(BadAlloc) => "bad allocation"
    case ErrorMessage(Logic) => "logic error"
    case ErrorMessage(Unknown) => "unknown error"
    case WarningMessage(OperationUndefined) => "operation_undefined"
    case WarningMessage(AtomUndefined) => "atom undefined"
    case WarningMessage(FileIncluded) => "file included"
    case WarningMessage(VariableUnbounded) => "variable unbounded"
    case WarningMessage(GlobalVariable) => "global variable"
    case _ => "unknown message code"
  }

  /** The codes that have a text of their own. */
  predicate HasText(code: MessageCode) {
    code != ErrorMessage(Fatal) && !(code.ErrorMessage? && code.code.Unlisted?)
  }

  /** Distinct listed codes have distinct texts, so the text identifies the code. */
  lemma MessageCodeStrInjective(a: MessageCode, b: MessageCode)
    requires HasText(a) && HasText(b)
    ensures MessageCodeStr(a) == MessageCodeStr(b) <==> a == b
  {
  }

  /** `handleError`: raises the exception a status code stands for. `slot` is
      the optionally stored exception; a null pointer and an empty
      `exception_ptr` are both `None`. A code outside the enumeration matches no
      case of the switch and raises nothing. */
  function HandleError(code: ErrorCode, slot: Option<Exc>): (r: Outcome<()>)
    ensures r.Threw? <==> IsFailure(code)
    ensures code == Unknown && slot.Some? ==> r == Threw(slot.value)
  {
    match code
    case Success => Done(())
    case Fatal => Threw(RuntimeError("fatal error"))
    case Runtime => Threw(RuntimeError("runtime error"))
    case Logic => Threw(LogicError("logic error"))
    case BadAlloc => Threw(BadAllocError)
    case Unknown =>
      if slot.Some? then Threw(slot.value) else Threw(LogicError("unknown error"))
    case Unlisted(_) => Done(())
  }

  /** The kind of exception `handleError` raises follows the code: runtime
      errors for `Fatal` and `Runtime`, a logic error for `Logic`, `bad_alloc`
      for `BadAlloc`; the stored exception matters only for `Unknown`, and
      without one `Unknown` raises a logic error. */
  lemma HandleErrorKinds(code: ErrorCode, slot: Option<Exc>)
    ensures code.Fatal? || code.Runtime? ==> HandleError(code, slot).Threw? && HandleError(code, slot).exc.RuntimeError?
    ensures code.Logic? ==> HandleError(code, slot) == Threw(LogicError("logic error"))
    ensures code.BadAlloc? ==> HandleError(code, slot) == Threw(BadAllocError)
    ensures code.Unknown? && slot.None? ==> HandleError(code, slot) == Threw(LogicError("unknown error"))
    ensures !code.Unknown? ==> HandleError(code, slot) == HandleError(code, None)
  {
  }

  /** What a C boundary call yields: its status code, and the value it wrote
      to its out-parameter (`None`: left unwritten). */
  datatype CCall<+T> = CCall(status: ErrorCode, out: Option<T>)

  /** `GRINGO_CLINGO_TRY { body } GRINGO_CLINGO_CATCH`: a body that completes
      yields success and its value; one that raises yields the code `tr`
      assigns to the exception and writes nothing. */
  function CatchAll<T>(tr: Exc -> ErrorCode, body: Outcome<T>): (r: CCall<T>)
    ensures r.out.Some? <==> body.Done?
    ensures body.Done? ==> r.status == Success && r.out.value == body.value
    ensures body.Threw? ==> r.status == tr(body.exc)
  {
    match body
    case Done(v) => CCall(Success, Some(v))
    case Threw(e) => CCall(tr(e), None)
  }

  /** The C++ wrapper idiom `handleError(c_call(..., &ret)); return ret;`. */
  function Checked<T>(c: CCall<T>, slot: Option<Exc>): (r: Outcome<Option<T>>)
    ensures r.Threw? <==> IsFailure(c.status)
    ensures r.Threw? ==> HandleError(c.status, slot) == Threw(r.exc)
    ensures r.Done? ==> r.value == c.out
  {
    match HandleError(c.status, slot)
    case Threw(e) => Threw(e)
    case Done(_) => Done(c.out)
  }

  /** The C++ wrapper idiom `c_call(..., &ret); return ret;` around a C call
      whose body is wrapped in the catch-all, with the status dropped: nothing
      is ever raised, and when the body raised, `ret` is left as it was
      (`None`: indeterminate). */
  function Unchecked<T>(tr: Exc -> ErrorCode, body: Outcome<T>): (r: Option<T>)
    ensures body.Done? ==> r == Some(body.value)
    ensures body.Threw? ==> r.None?
  {
    CatchAll(tr, body).out
  }

  /** A C call wrapped in the catch-all and then in `handleError` without a
      stored exception gives back the body's value; when the body raised and
      the catch-all assigns the exception a code `handleError` raises for,
      it raises what `handleError` raises for that code. The mapping
      `GRINGO_CLINGO_CATCH` applies is not part of this model, so that is an
      assumption about the one exception at hand. */
  lemma CheckedCatchAll<T>(tr: Exc -> ErrorCode, body: Outcome<T>)
    requires body.Threw? ==> IsFailure(tr(body.exc))
    ensures body.Done? ==> Checked(CatchAll(tr, body), None) == Done(Some(body.value))
    ensures body.Threw? ==>
              && Checked(CatchAll(tr, body), None).Threw?
              && HandleError(tr(body.exc), None) == Threw(Checked(CatchAll(tr, body), None).exc)
  {
  }

  /** How the body of a `CLINGO_CALLBACK_TRY` block ends. */
  datatype BodyEnd = FellThrough | ReturnedEarly(code: ErrorCode) | Escaped(exc: Exc)

  /** The status a callback returns and the exception slot afterwards. */
  datatype Caught = Caught(code: ErrorCode, slot: Option<Exc>)

  /** `CLINGO_CALLBACK_TRY { body } CLINGO_CALLBACK_CATCH(slot)`: any escaping
      exception is stored in the slot and reported as `Unknown`; a body that
      returns early returns its own code; one that runs to the end returns
      success. The slot is overwritten only on an exception. */
  function CallbackCatch(body: BodyEnd, slot: Option<Exc>): (r: Caught)
    ensures body.Escaped? ==> r == Caught(Unknown, Some(body.exc))
    ensures !body.Escaped? ==> r.slot == slot
    ensures body == FellThrough ==> r.code == Success
    ensures body.ReturnedEarly? ==> r.code == body.code
    ensures r.code == Unknown ==> body.Escaped? || body == ReturnedEarly(Unknown)
  {
    match body
    case FellThrough => Caught(Success, slot)
    case ReturnedEarly(code) => Caught(code, slot)
    case Escaped(e) => Caught(Unknown, Some(e))
  }

  /** Capture followed by `handleError` on the same slot re-raises exactly the
      exception that escaped the callback, whatever the slot held before. */
  lemma CallbackCatchRethrows(e: Exc, slot: Option<Exc>)
    ensures var c := CallbackCatch(Escaped(e), slot); HandleError(c.code, c.slot) == Threw(e)
  {
  }
}
