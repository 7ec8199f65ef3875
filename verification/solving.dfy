/**
 * Solving across the boundary: the packing of a solve result into the bit
 * mask `clingo_solve_result_t`, the assumption vector handed to the engine,
 * the model-handler bridge of `Control::solve`, and the `SolveIter` handle
 * whose only state is the nullable engine session it owns.
 */
module Solving {
  import opened Boundary
  import opened Values

  datatype Satisfiability = SatUnknown | Satisfiable | Unsatisfiable

  /** `SolveResult`: satisfiability plus the interrupted and exhausted flags. */
  datatype SolveResult = SolveResult(satisfiable: Satisfiability, interrupted: bool, exhausted: bool)

  /** A value of the unsigned bit set `clingo_solve_result_t`, given by the
      positions of its one bits: bitwise OR is union, bitwise AND is
      intersection, 0 is the empty set. */
  type Bits = set<nat>

  /** The width of `clingo_solve_result_t`. */
  const Width: nat := 32

  /** The numeric values behind `clingo_solve_result_t` and the satisfiability
      enumeration, which are defined outside this file: the code of each
      satisfiability value, a mask covering those codes, and the positions of
      the interrupted and exhausted flags. */
  datatype Layout = Layout(
    unknownCode: Bits, satCode: Bits, unsatCode: Bits, satMask: Bits,
    interruptedBit: nat, exhaustedBit: nat)

  /** The three parts of the mask occupy disjoint bits inside the width, and
      the three satisfiability codes are distinct. */
  predicate Disjoint(L: Layout) {
    && L.unknownCode != L.satCode && L.unknownCode != L.unsatCode && L.satCode != L.unsatCode
    && L.unknownCode <= L.satMask && L.satCode <= L.satMask && L.unsatCode <= L.satMask
    && (forall k :: k in L.satMask ==> k < Width)
    && L.interruptedBit < Width && L.exhaustedBit < Width
    && L.interruptedBit !in L.satMask && L.exhaustedBit !in L.satMask
    && L.interruptedBit != L.exhaustedBit
  }

  function SatCode(L: Layout, s: Satisfiability): Bits {
    match s
    case SatUnknown => L.unknownCode
    case Satisfiable => L.satCode
    case Unsatisfiable => L.unsatCode
  }

  /** A flag's bit times a boolean: the bit when it holds, nothing otherwise. */
  function Flag(on: bool, bit: nat): Bits {
    if on then {bit} else {}
  }

  /** `convert`: the satisfiability code, OR'd with the interrupted bit times
      `interrupted()` and the exhausted bit times `exhausted()`. */
  function Convert(L: Layout, r: SolveResult): (m: Bits)
    ensures SatCode(L, r.satisfiable) <= m
    ensures r.interrupted ==> L.interruptedBit in m
    ensures r.exhausted ==> L.exhaustedBit in m
    ensures forall k :: k in m ==>
              || k in SatCode(L, r.satisfiable)
              || (r.interrupted && k == L.interruptedBit)
              || (r.exhausted && k == L.exhaustedBit)
  {
    SatCode(L, r.satisfiable) + Flag(r.interrupted, L.interruptedBit) + Flag(r.exhausted, L.exhaustedBit)
  }

  /** Reading the three parts back out of a mask. */
  function Decode(L: Layout, m: Bits): SolveResult {
    var s := m * L.satMask;
    SolveResult(
      if s == L.satCode then Satisfiable else if s == L.unsatCode then Unsatisfiable else SatUnknown,
      L.interruptedBit in m,
      L.exhaustedBit in m)
  }

  /** Each part of the mask holds exactly its own component: the
      satisfiability code under the mask, the interrupted bit exactly when
      the search was interrupted, the exhausted bit exactly when it was
      exhausted; and no bit lies outside the width. */
  lemma ConvertFields(L: Layout, r: SolveResult)
    requires Disjoint(L)
    ensures Convert(L, r) * L.satMask == SatCode(L, r.satisfiable)
    ensures L.interruptedBit in Convert(L, r) <==> r.interrupted
    ensures L.exhaustedBit in Convert(L, r) <==> r.exhausted
    ensures forall k :: k in Convert(L, r) ==> k < Width
  {
    var a := SatCode(L, r.satisfiable);
    assert a <= L.satMask;
    assert Convert(L, r) * L.satMask == a;
  }

  /** Every component is recoverable from the mask. */
  lemma ConvertDecode(L: Layout, r: SolveResult)
    requires Disjoint(L)
    ensures Decode(L, Convert(L, r)) == r
  {
    ConvertFields(L, r);
  }

  /** Hence `convert` loses nothing: distinct results give distinct masks. */
  lemma ConvertInjective(L: Layout, r1: SolveResult, r2: SolveResult)
    requires Disjoint(L)
    ensures Convert(L, r1) == Convert(L, r2) <==> r1 == r2
  {
    ConvertDecode(L, r1);
    ConvertDecode(L, r2);
  }

  /** `clingo_solve_iter_get` hands only `satisfiable()` to `convert`; the
      result built from it carries neither flag (as the implicit conversion
      from the satisfiability value is taken to do). */
  function IterGetCode(L: Layout, r: SolveResult): (m: Bits)
    ensures m == SatCode(L, r.satisfiable)
  {
    Convert(L, SolveResult(r.satisfiable, false, false))
  }

  /** So the mask the iterator reports never shows the interrupted or the
      exhausted flag, even when the engine's result has them. */
  lemma IterGetDropsFlags(L: Layout, r: SolveResult)
    requires Disjoint(L)
    ensures Decode(L, IterGetCode(L, r)) == SolveResult(r.satisfiable, false, false)
    ensures r.interrupted || r.exhausted ==> Decode(L, IterGetCode(L, r)) != r
  {
    ConvertDecode(L, SolveResult(r.satisfiable, false, false));
  }

  /** `clingo_symbolic_literal_t`: an atom and a sign. */
  datatype SymbolicLiteral = SymbolicLiteral(atom: Symbol, sign: bool)

  /** An element of `Control::Assumptions`: an atom and its required truth value. */
  datatype Assumption = Assumption(atom: Symbol, truth: bool)

  /** `toAss`: one assumption per literal, in order, with the same atom and
      the negated sign. */
  method ToAss(lits: seq<SymbolicLiteral>) returns (ass: seq<Assumption>)
    ensures |ass| == |lits|
    ensures forall i :: 0 <= i < |lits| ==> ass[i].atom == lits[i].atom && ass[i].truth == !lits[i].sign
  {
    ass := [];
    var i := 0;
    while i < |lits|
      invariant 0 <= i <= |lits|
      invariant |ass| == i
      invariant forall k :: 0 <= k < i ==> ass[k].atom == lits[k].atom && ass[k].truth == !lits[k].sign
    {
      ass := ass + [Assumption(lits[i].atom, !lits[i].sign)];
      i := i + 1;
    }
  }

  /** What the engine sees from one call of the model handler of
      `Control::solve`, and the exception slot afterwards. */
  datatype HandlerCall = HandlerCall(seen: Outcome<bool>, slot: Option<Exc>)

  /** The C++ handler of `Control::solve` runs the user's handler under the
      callback catch; the C wrapper of `clingo_control_solve` turns a
      non-success status into a thrown `ClingoError`. A handler that returns
      is seen by the engine as it is; one that raises is stored in the slot
      and seen as `ClingoError(Unknown)`. */
  function ModelHandlerCall(handler: Outcome<bool>, slot: Option<Exc>): (r: HandlerCall)
    ensures handler.Done? ==> r == HandlerCall(handler, slot)
    ensures handler.Threw? ==> r == HandlerCall(Threw(ClingoError(Unknown)), Some(handler.exc))
  {
    var caught := CallbackCatch(if handler.Done? then FellThrough else Escaped(handler.exc), slot);
    var seen := if caught.code != Success then Threw(ClingoError(caught.code)) else handler;
    HandlerCall(seen, caught.slot)
  }

  /** `Control::solve` drops the status of `clingo_control_solve`. When the
      user's handler raises and the engine passes that on, the C call fails,
      the result is left indeterminate, nothing is raised, and the handler's
      exception stays in the slot; `handleError` on the same status and slot
      would have re-raised it. */
  lemma SolveDropsHandlerException(tr: Exc -> ErrorCode, e: Exc, slot: Option<Exc>)
    requires tr(ClingoError(Unknown)) == Unknown
    ensures var call := ModelHandlerCall(Threw(e), slot);
      && Unchecked(tr, call.seen).None?
      && call.slot == Some(e)
      && HandleError(CatchAll(tr, call.seen).status, call.slot) == Threw(e)
  {
  }

  /** A model the engine found, known only by its identity. */
  datatype ModelRef = ModelRef(id: nat)

  /** The engine's enumeration session behind a `clingo_solve_iter_t*`. The
      search is opaque: it is represented by the models it will still
      produce, the result it reports, and how often it was closed. */
  class EngineIter {
    var pending: seq<ModelRef>
    var result: Outcome<SolveResult>
    var closeCalls: nat

    constructor (models: seq<ModelRef>, res: Outcome<SolveResult>)
      ensures pending == models && result == res && closeCalls == 0
    {
      pending, result, closeCalls := models, res, 0;
    }

    /** The engine's `next`: the next model, or none once the search is over. */
    method Next() returns (m: Option<ModelRef>)
      modifies this
      ensures old(pending) == [] ==> m == None && pending == []
      ensures old(pending) != [] ==> m == Some(old(pending)[0]) && pending == old(pending)[1..]
      ensures result == old(result) && closeCalls == old(closeCalls)
    {
      if pending == [] {
        m := None;
      } else {
        m := Some(pending[0]);
        pending := pending[1..];
      }
    }

    /** The engine's `close`: releases the session. */
    method Close()
      modifies this
      ensures closeCalls == old(closeCalls) + 1
      ensures pending == old(pending) && result == old(result)
    {
      closeCalls := closeCalls + 1;
    }
  }

  /** `SolveIter`: owns at most one engine session through the nullable
      `iter`. */
  class SolveIter {
    var iter: EngineIter?

    /** The default constructor: no session. */
    constructor Empty()
      ensures iter == null
    {
      iter := null;
    }

    /** Takes ownership of a session (or of none). */
    constructor (it: EngineIter?)
      ensures iter == it
    {
      iter := it;
    }

    /** The move constructor: starts empty and swaps, so the session moves
        over and the source is left empty. */
    constructor Move(other: SolveIter)
      modifies other
      ensures iter == old(other.iter) && other.iter == null
    {
      iter := null;
      new;
      iter, other.iter := other.iter, iter;
    }

    /** Move assignment swaps the two sessions. */
    method MoveAssign(other: SolveIter)
      modifies this, other
      ensures iter == old(other.iter) && other.iter == old(iter)
    {
      iter, other.iter := other.iter, iter;
    }

    /** `SolveIter::next`: without a session, no model and no engine call;
        with one, the engine's next model through `handleError`. */
    method Next(tr: Exc -> ErrorCode) returns (r: Outcome<Option<ModelRef>>)
      modifies iter
      ensures iter == old(iter)
      ensures iter == null ==> r == Done(None)
      ensures iter != null && old(iter.pending) == [] ==> r == Done(None) && iter.pending == []
      ensures iter != null && old(iter.pending) != [] ==>
                r == Done(Some(old(iter.pending)[0])) && iter.pending == old(iter.pending)[1..]
      ensures iter != null ==> iter.result == old(iter.result) && iter.closeCalls == old(iter.closeCalls)
    {
      var m: Option<ModelRef> := None;
      if iter != null {
        var next := iter.Next();
        match Checked(CatchAll(tr, Done(next)), None) {
          case Threw(e) => return Threw(e);
          case Done(_) =>
        }
        m := next;
      }
      r := Done(m);
    }

    /** `SolveIter::get`: 0 (no bits) without a session; with one, the mask
        `clingo_solve_iter_get` reports, which keeps only the satisfiability
        of the engine's result. When the engine's `get` raises, the status
        goes through `handleError`: a code it raises for raises its
        exception, any other code leaves the initial 0. */
    method Get(L: Layout, tr: Exc -> ErrorCode) returns (r: Outcome<Bits>)
      ensures iter == null ==> r == Done({})
      ensures iter != null && iter.result.Done? ==> r == Done(IterGetCode(L, iter.result.value))
      ensures iter != null && iter.result.Threw? ==>
                && (r.Threw? <==> IsFailure(tr(iter.result.exc)))
                && (r.Threw? ==> HandleError(tr(iter.result.exc), None) == Threw(r.exc))
                && (r.Done? ==> r.value == {})
    {
      var ret: Bits := {};
      if iter != null {
        var body := match iter.result
          case Done(res) => Done(IterGetCode(L, res))
          case Threw(e) => Threw(e);
        match Checked(CatchAll(tr, body), None) {
          case Threw(e) => return Threw(e);
          case Done(out) =>
            if out.Some? {
              ret := out.value;
            }
        }
      }
      r := Done(ret);
    }

    /** `SolveIter::close`: with a session, closes it once (the status of
        `clingo_solve_iter_close` is dropped) and forgets it; without one,
        does nothing. */
    method Close()
      modifies this, iter
      ensures iter == null
      ensures old(iter) != null ==>
                old(iter).closeCalls == old(iter.closeCalls) + 1
                && old(iter).pending == old(iter.pending) && old(iter).result == old(iter.result)
      ensures old(iter) == null ==> unchanged(this)
    {
      if iter != null {
        iter.Close();
        iter := null;
      }
    }
  }

  /** `Control::solve_iter`: the handle owns the session the engine opened;
      when the engine raises, the status is dropped and the handle wraps the
      uninitialised pointer (`None`: no determinate handle). */
  method SolveIterOf(tr: Exc -> ErrorCode, engine: Outcome<EngineIter>) returns (h: Option<SolveIter>)
    ensures engine.Done? <==> h.Some?
    ensures h.Some? ==> fresh(h.value) && h.value.iter == engine.value
  {
    match Unchecked(tr, engine)
    case None =>
      h := None;
    case Some(it) =>
      var handle := new SolveIter(it);
      h := Some(handle);
  }

  /** Closing twice closes the engine session exactly once. */
  method CloseTwice(it: SolveIter)
    modifies it, it.iter
    ensures it.iter == null
    ensures old(it.iter) != null ==> old(it.iter).closeCalls == old(it.iter.closeCalls) + 1
  {
    it.Close();
    it.Close();
  }

  /** Moving a handle into a fresh one and closing both closes the session
      exactly once. */
  method MoveThenCloseBoth(it: SolveIter) returns (moved: SolveIter)
    modifies it, it.iter
    ensures it.iter == null && moved.iter == null
    ensures old(it.iter) != null ==> old(it.iter).closeCalls == old(it.iter.closeCalls) + 1
  {
    moved := new SolveIter.Move(it);
    it.Close();
    moved.Close();
  }
}
