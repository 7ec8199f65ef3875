# clingo control boundary, modelled in Dafny

This project models the C/C++ boundary of the clingo answer-set solving
engine, `libgringo/src/control.cc`. That file exposes the grounder and
solver through a C API of status-returning functions and wraps the C API
again in a thin C++ layer that raises exceptions. The engine behind it
(grounding, solving, the atom index, printing, ordering and hashing of
symbols) is not part of this model. What is modelled is the logic the
file itself contains:

- the error layer (`boundary.dfy`, module `Boundary`): status codes,
  message texts, `handleError`, the catch-all macros, and the two C++
  wrapper idioms, which either check the status of a C call or drop it;
- symbols and signatures (`values.dfy`, module `Values`): the C accessors
  that check a symbol's variant before reading, their C++ wrappers, the
  default symbol, and the comparison operators derived from `eq` and `lt`;
- the two-phase size-then-fill protocol (`copy_out.dfy`, module `CopyOut`),
  by which signatures, model atoms and symbol texts are copied into
  caller-owned arrays, and the C++ wrappers that call each C function twice;
- the symbolic-atom getters (`atoms.dfy`, module `AtomIndex`);
- solving (`solving.dfy`, module `Solving`): the solve-result bit mask,
  the assumption vector, the model-handler bridge of `Control::solve`, and
  the `SolveIter` handle;
- grounding (`grounding.dfy`, module `Grounding`): the copying of program
  parts, the `ClingoContext` that collects symbols from the C ground
  callback, and the C callback `Control::ground` installs around the user's
  C++ callback.

The engine is represented by what it hands over: an `Outcome` (a value, or
the exception it raised) for each read, the items a list query produces,
the models an enumeration still has, and the spans and status of one
callback run. How `GRINGO_CLINGO_CATCH` maps an exception to a status code
is defined outside the file; it is a parameter `tr` of the members that
need it. A property that depends on it states its assumption about the
one exception at hand: that the code assigned to it is one of the five
failure codes `handleError` raises for (`IsFailure`), not success and not
a value outside the enumeration.

A `clingo_solve_result_t` value is represented by the set of positions of
its one bits, so that bitwise OR is union and bitwise AND is intersection.
The numeric codes of the satisfiability values and the two flags are
declared outside the file and stay symbolic (`Layout`).

Two behaviours of the code that a reader of the interface may not expect;
the model follows the code. First, `clingo_symbol_to_string`
refuses only a claimed size below 1 and otherwise prints into a stream of
capacity `n - 1`; it never compares the claimed size with the length of
the text. Provided that `ArrayStream` (defined outside this file) writes
only what fits and drops the rest, a buffer that is too short receives a
truncated text and the call succeeds rather than failing with a length
error.
Second, the text of the "operation undefined" warning is
`"operation_undefined"`, with an underscore.

## Model

| member | source | states |
|---|---|---|
| Boundary.MessageCodeStr | libgringo/src/control.cc:40-54 | the text is "unknown message code" exactly for `Fatal` and for codes outside the enumeration |
| Boundary.MessageCodeStrInjective | libgringo/src/control.cc:40-54 | among the codes with a text of their own, two codes have the same text if and only if they are the same code |
| Boundary.HandleError | libgringo/src/control.cc:452-464 | raises exactly for runtime, logic, bad_alloc, unknown and fatal; for `Unknown` with a stored exception, raises that exception |
| Boundary.HandleErrorKinds | libgringo/src/control.cc:452-464 | fatal and runtime raise `runtime_error`, logic raises `logic_error("logic error")`, bad_alloc raises `bad_alloc`, unknown without a stored exception raises `logic_error("unknown error")`, and the slot matters for no other code |
| Boundary.CatchAll | libgringo/src/control.cc:121-126 | the catch-all around a C entry point: a body that completes gives success and writes its value; one that raises writes nothing and gives the code assigned to its exception |
| Boundary.Checked | libgringo/src/control.cc:545-549 | the `handleError(c_call(..., &ret)); return ret;` idiom raises exactly when the status is a failure, and then raises what `handleError` raises for that status and slot (the stored exception for `unknown`); otherwise it returns what the call wrote |
| Boundary.CheckedCatchAll | libgringo/src/control.cc:545-549 | a checked C call returns the body's value when it completes; when the body raised and the catch-all assigns the exception a failure code, it raises what `handleError` raises for that code |
| Boundary.Unchecked | libgringo/src/control.cc:792-796 | the idiom that drops the status (`Control::symbolic_atoms`, `Control::solve_iter`, the atom getters) never raises; it yields the body's value, or nothing determinate when the body raised |
| Boundary.CallbackCatch | libgringo/src/control.cc:579-580 | an escaping exception is stored in the slot and reported as `unknown`; otherwise the slot is untouched, an early return keeps its code and a body that runs to the end returns success; `unknown` arises only from an exception or an early `unknown` |
| Boundary.CallbackCatchRethrows | libgringo/src/control.cc:579-580 | `handleError` on the status and slot the catch leaves behind raises exactly the exception that escaped, whatever the slot held before |
| Values.TypeOf | libgringo/src/control.cc:158-160 | the type tag names the symbol's variant: number, string, function, infimum or supremum, each exactly for its own variant |
| Values.SymbolNum | libgringo/src/control.cc:121-126 | succeeds if and only if the symbol is a number, and then the number reconstructs the symbol; otherwise the `clingo_expect` check fails |
| Values.SymbolName | libgringo/src/control.cc:128-133 | succeeds if and only if the symbol is a function, and then yields its name |
| Values.SymbolString | libgringo/src/control.cc:135-140 | succeeds if and only if the symbol is a string, and then the text reconstructs the symbol |
| Values.SymbolSign | libgringo/src/control.cc:142-148 | succeeds if and only if the symbol is a function, and then yields its sign |
| Values.SymbolArgs | libgringo/src/control.cc:150-156 | succeeds if and only if the symbol is a function, and then yields its arguments in order |
| Values.Lift | libgringo/src/control.cc:545-573 | a C++ accessor returns the C accessor's value unchanged; when the C accessor fails and the catch-all assigns its exception a failure code, it raises what `handleError` raises for that code |
| Values.NumOf | libgringo/src/control.cc:545-549 | `Symbol::num` returns a value if and only if the symbol is a number, and that value is its number |
| Values.NameOf | libgringo/src/control.cc:551-555 | `Symbol::name` returns a value if and only if the symbol is a function, and that value is its name |
| Values.StringOf | libgringo/src/control.cc:557-561 | `Symbol::string` returns a value if and only if the symbol is a string, and that value is its text |
| Values.SignOf | libgringo/src/control.cc:563-567 | `Symbol::sign` returns a value if and only if the symbol is a function, and that value is its sign |
| Values.ArgsOf | libgringo/src/control.cc:569-573 | `Symbol::args` returns a value if and only if the symbol is a function, and that value is its arguments |
| Values.WrongVariantRaisesLogicError | libgringo/src/control.cc:545-561 | when a failed `clingo_expect` maps to the logic code, each of `num`, `string`, `name`, `sign` and `args` applied to the wrong variant raises `logic_error("logic error")` |
| Values.DefaultSymbol | libgringo/src/control.cc:505-507 | the default symbol reads back as the number 0 |
| Values.NotEqual | libgringo/src/control.cc:492-492 | `!=` built as `!eq(a, b)` is inequality whenever `eq` is equality (also `Symbol`, line 601) |
| Values.LessEqual | libgringo/src/control.cc:494-494 | `<=` built as `!lt(b, a)` holds exactly when `a` is less than or equal to `b`, whenever `lt` is a strict total order (also `Symbol`, line 603) |
| Values.Greater | libgringo/src/control.cc:495-495 | `>` built as `lt(b, a)` holds exactly when `a` is neither less than nor equal to `b`, under the same assumption (also `Symbol`, line 604) |
| Values.GreaterEqual | libgringo/src/control.cc:496-496 | `>=` built as `!lt(a, b)` holds exactly when `b` is less than or equal to `a`, under the same assumption (also `Symbol`, line 605) |
| Values.DerivedComparisons | libgringo/src/control.cc:600-605 | when `eq` is equality and `lt` a strict total order, `!=`, `<=`, `>`, `>=` mean what their names say and exactly one of `<`, `==`, `>` holds |
| Values.LessEqualIsTotalOrder | libgringo/src/control.cc:491-496 | under the same assumption the derived `<=` is reflexive, total, antisymmetric and transitive |
| CopyOut.SizeThenFill | libgringo/src/control.cc:200-212 | the engine is asked first, and its exception ends the call with nothing written and the size unchanged; then null size pointer: `invalid_argument`; null buffer: the size becomes the item count and nothing is written; claimed size below the count: `length_error` and nothing is written; otherwise the buffer starts with the items in order, and the rest of it and the size are unchanged (also `clingo_model_atoms`, lines 254-265) |
| CopyOut.PrintInto | libgringo/src/control.cc:172-173 | printing into a stream of capacity `cap` writes the first `cap` characters of the text to the front of the buffer and nothing else |
| CopyOut.SymbolToString | libgringo/src/control.cc:162-176 | null size pointer: `invalid_argument`; null buffer: the size becomes the text length plus one; claimed size 0: `length_error`; otherwise the first `n - 1` characters of the text are written and the size is unchanged |
| CopyOut.ShortBufferIsTruncated | libgringo/src/control.cc:171-173 | for the text "p(1)" the query reports 5, and a fill that claims 4 succeeds with the truncated text "p(1" |
| CopyOut.ToString | libgringo/src/control.cc:582-589 | query, resize to `n - 1`, fill: the result is exactly the printed text |
| CopyOut.Signatures | libgringo/src/control.cc:658-666 | with both statuses dropped, the vector is exactly the engine's signatures in its order |
| CopyOut.Atoms | libgringo/src/control.cc:681-688 | the vector is exactly the model's atoms in order; when the engine raises and the catch-all assigns that a failure code, the call raises what `handleError` raises for it |
| AtomIndex.AtomSymbol | libgringo/src/control.cc:609-613 | the engine's symbol when the read succeeds; when it raises, the status is dropped and the default symbol, number 0, is returned |
| AtomIndex.FailedReadLooksLikeZero | libgringo/src/control.cc:609-613 | a failed read gives the same result as an atom whose symbol is the number 0 |
| AtomIndex.AtomField | libgringo/src/control.cc:615-631 | `literal`, `fact` and `external` yield a determinate value if and only if the engine's read succeeds, and then the engine's value |
| Solving.Convert | libgringo/src/control.cc:32-36 | the mask contains the satisfiability code, the interrupted bit when the search was interrupted, the exhausted bit when it was exhausted, and no other bit |
| Solving.ConvertFields | libgringo/src/control.cc:32-36 | with disjoint parts, the mask restricted to the satisfiability bits is the satisfiability code, the interrupted bit is set if and only if the search was interrupted, the exhausted bit if and only if it was exhausted, and no bit lies outside 32 |
| Solving.ConvertDecode | libgringo/src/control.cc:32-36 | every component of the result can be read back from the mask |
| Solving.ConvertInjective | libgringo/src/control.cc:32-36 | two results have the same mask if and only if they are equal |
| Solving.IterGetCode | libgringo/src/control.cc:279-279 | the mask `clingo_solve_iter_get` writes is exactly the code of the engine's satisfiability value, with no flag bit (taking the conversion at line 279 to carry neither flag) |
| Solving.IterGetDropsFlags | libgringo/src/control.cc:277-281 | taking the conversion from the satisfiability value to carry neither flag, the mask `clingo_solve_iter_get` reports keeps the satisfiability and shows neither flag, so it differs from the engine's result whenever a flag is set |
| Solving.ToAss | libgringo/src/control.cc:373-379 | one assumption per literal, in order, each with the literal's atom and the negation of its sign |
| Solving.ModelHandlerCall | libgringo/src/control.cc:769-774 | a handler that returns is seen by the engine unchanged; one that raises is stored in the slot and seen as `ClingoError(unknown)` |
| Solving.SolveDropsHandlerException | libgringo/src/control.cc:766-776 | when the user's handler raises, `Control::solve` raises nothing and leaves the result indeterminate although the slot holds the exception `handleError` would have raised |
| Solving.SolveIter.Empty | libgringo/src/control.cc:696-697 | a default handle owns no session |
| Solving.SolveIter.constructor | libgringo/src/control.cc:699-700 | the handle owns the given session |
| Solving.SolveIter.Move | libgringo/src/control.cc:702-703 | move construction takes the source's session and leaves the source empty |
| Solving.SolveIter.MoveAssign | libgringo/src/control.cc:705-708 | move assignment swaps the two handles' sessions |
| Solving.SolveIter.Next | libgringo/src/control.cc:710-714 | without a session: no model and the engine is not called; with one: the engine's next model, or none once it has none left |
| Solving.SolveIter.Get | libgringo/src/control.cc:716-720 | without a session: 0; with one: the mask `clingo_solve_iter_get` reports for the engine's result; when the engine's `get` raises, a failure code raises what `handleError` raises for it, and any other code leaves 0 |
| Solving.SolveIter.Close | libgringo/src/control.cc:722-727 | with a session: the engine's close is called exactly once and the handle becomes empty; without one: nothing changes |
| Solving.CloseTwice | libgringo/src/control.cc:722-727 | closing a handle twice closes its session exactly once |
| Solving.MoveThenCloseBoth | libgringo/src/control.cc:702-727 | moving a handle and closing both the source and the target closes the session exactly once |
| Solving.SolveIterOf | libgringo/src/control.cc:778-782 | the new handle owns the engine's session; when the engine raises, the status is dropped and there is no determinate handle |
| Grounding.FlattenConcat | libgringo/src/control.cc:336-338 | the symbols of two runs of spans, one after the other, are the symbols of each run concatenated |
| Grounding.ClingoContext.constructor | libgringo/src/control.cc:319-322 | a new context records whether a callback was given and has collected nothing |
| Grounding.ClingoContext.Callable | libgringo/src/control.cc:324-326 | a name is callable exactly when a callback was given, whatever the name |
| Grounding.ClingoContext.Emit | libgringo/src/control.cc:333-340 | the emit callback appends the span's symbols to `ret` in order and reports success |
| Grounding.ClingoContext.Call | libgringo/src/control.cc:328-343 | on status 0 the result is what `ret` held followed by every emitted symbol in emission order, and `ret` is left empty; on any other status `ClingoError` with that status is raised and the emitted symbols stay in `ret` |
| Grounding.CallAfterFailure | libgringo/src/control.cc:328-343 | the symbols emitted by a call that failed come back at the front of the next successful call on the same context (reachable only when the grounder calls the context again after a failed call) |
| Grounding.ControlGround | libgringo/src/control.cc:354-369 | the parts are copied with their names and parameters in order, and a context, callable for every name and with nothing collected, is handed to the engine if and only if a callback was given |
| Grounding.Forward | libgringo/src/control.cc:752-755 | the spans go to the C emit callback in order until the first one that fails; every span before it succeeded, and its status is the one reported |
| Grounding.Bridge | libgringo/src/control.cc:746-760 | an empty user callback emits nothing and returns success; the spans go out in order, and when one fails (at any position, including the last) it is the last one forwarded, every one before it succeeded, and its status is returned with the slot untouched; when every emit succeeds, all spans are forwarded, and a raised exception is parked in the slot and reported as `unknown` while a completed callback returns success |
| Grounding.BridgeRethrows | libgringo/src/control.cc:760-761 | an exception raised by the user's callback is exactly what `handleError` raises from the status and slot the bridge leaves |
| Grounding.GroundCall | libgringo/src/control.cc:742-762 | one external-function call during `Control::ground`: the grounder receives the user's symbols in order; an exception raised by the user's callback reaches the caller of `Control::ground` as itself when the catch-all keeps `unknown` for a `ClingoError(unknown)` |

## Left out

- The engine: grounding, solving, parsing, `add`, `assign_external`,
  `release_external`, the atom-index domain operations (`iter`, `next`,
  `lookup`, `valid`, `length`) and `Model::contains`. Each is represented
  by the value or exception it hands over, or by the `EngineIter` stand-in
  for an enumeration session.
- The bodies of `GRINGO_CLINGO_TRY`/`GRINGO_CLINGO_CATCH` and of
  `clingo_expect`: the exception-to-code mapping is the parameter `tr`, and
  logging of caught exceptions is not modelled.
- Printing, hashing and ordering of symbols and signatures, `CountStream`
  and `ArrayStream`: the printed text is a parameter, and `eq`/`lt` are
  parameters of the comparison lemmas.
- CopyOut.PrintInto: assumes `ArrayStream` writes the characters that fit
  into its capacity and silently drops the rest, and does not model whether
  it writes a terminator, because its definition is not part of this model;
  the truncation that `CopyOut.ShortBufferIsTruncated` shows rests on this.
- Solving.IterGetCode: assumes the implicit conversion at line 279 sets
  no flag bit, as does the next line.
- Solving.IterGetDropsFlags: assumes the implicit conversion from the
  satisfiability value at line 279 to a `SolveResult` sets neither the
  interrupted nor the exhausted flag; that conversion is defined outside
  this file.
- Symbol and signature construction (`Num`, `Str`, `Id`, `Fun`,
  `Signature`) and the allocation failures they report.
- CopyOut.Signatures: assumes the engine produces its signatures; if the
  first C call failed, the count `n` would be read uninitialised.
- Solving.SolveIter.Next: assumes the engine's `next` does not raise; the
  raised case goes through the same `handleError` path as every checked call.
- Grounding.ClingoContext.Emit: does not model an allocation failure while
  appending, the only way the emit callback can report a failure.
- Grounding.Bridge: assumes the user's callback does not catch the internal
  `Ret` exception a failed emit raises; a callback that caught it could go
  on emitting after the failure, which the model does not represent.
- Grounding.GroundCall: assumes a failed context call aborts grounding and
  that the user's callback does not catch the internal `Ret` exception; the
  grounder's handling of external-function results is not part of this model.
- Solving.ModelHandlerCall: the engine's use of the handler's answer to
  stop enumeration is part of the engine.
- `clingo_control_new`, option and argv handling, the logger lambda,
  `clingo_control_free` and the destructor: plumbing and memory management.
- Raw-pointer casts between C and C++ types, the width of `size_t`, and
  re-entrancy or blocking of engine callbacks.
- The numeric values of the solve-result codes and flags, which are
  declared outside this file; the `Layout` keeps them symbolic.
