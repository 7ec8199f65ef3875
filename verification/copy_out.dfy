/**
 * The two-phase "size-then-fill" protocol by which variable-length results
 * cross the C boundary: a call without a buffer reports the size needed, a
 * call with a buffer checks the capacity the caller claims and then copies
 * into the caller's array in place. Used for the signatures of the atom index,
 * the atoms of a model, and the text of a symbol; the C++ wrappers call each
 * C function twice to get the whole result.
 */
module CopyOut {
  import opened Boundary
  import opened Values

  /** A caller's `size_t` variable passed by pointer; a null pointer is a
      null `SizeCell?`. */
  class SizeCell {
    var value: nat

    constructor (v: nat)
      ensures value == v
    {
      value := v;
    }
  }

  /** `clingo_symbolic_atoms_signatures` and `clingo_model_atoms`. The engine
      is asked for the items first (`engine`: the items, or the exception it
      raises), and an exception there ends the call before anything is
      checked or written. Then a null size pointer is an invalid argument; a
      null buffer receives nothing and the size is set to the item count; a
      buffer whose claimed size `n` is below the count is a length error;
      otherwise the items are copied, in order, to the front of the buffer,
      and neither the rest of it nor `n` changes. The caller promises that
      `ret` has room for `n` elements. */
  method SizeThenFill<T>(engine: Outcome<seq<T>>, ret: array?<T>, n: SizeCell?) returns (r: Outcome<()>)
    requires ret != null && n != null ==> n.value <= ret.Length
    modifies ret, n
    ensures engine.Threw? ==> r == Threw(engine.exc)
    ensures engine.Threw? && n != null ==> n.value == old(n.value)
    ensures engine.Done? ==>
              (r.Done? <==> n != null && (ret == null || |engine.value| <= old(n.value)))
    ensures engine.Done? && n == null ==> r == Threw(InvalidArgument("size must be non-null"))
    ensures engine.Done? && n != null && ret == null ==> n.value == |engine.value|
    ensures engine.Done? && n != null && ret != null ==> n.value == old(n.value)
    ensures engine.Done? && n != null && ret != null && old(n.value) < |engine.value| ==>
              r == Threw(LengthError("not enough space"))
    ensures ret != null && r.Threw? ==> ret[..] == old(ret[..])
    ensures ret != null && r.Done? ==> ret[..] == engine.value + old(ret[|engine.value|..])
  {
    if engine.Threw? {
      return Threw(engine.exc);
    }
    var items := engine.value;
    if n == null {
      return Threw(InvalidArgument("size must be non-null"));
    }
    if ret == null {
      n.value := |items|;
      return Done(());
    }
    if n.value < |items| {
      return Threw(LengthError("not enough space"));
    }
    var i := 0;
    while i < |items|
      invariant 0 <= i <= |items| <= ret.Length
      modifies ret
      invariant forall k :: 0 <= k < i ==> ret[k] == items[k]
      invariant forall k :: i <= k < ret.Length ==> ret[k] == old(ret[k])
    {
      ret[i] := items[i];
      i := i + 1;
    }
    assert ret[..] == items + old(ret[|items|..]);
    r := Done(());
  }

  /** The first `cap` characters of `text` (all of it when it is shorter). */
  function Prefix(text: string, cap: nat): (p: string)
    ensures |p| <= cap && p <= text
    ensures |p| == cap || p == text
  {
    if cap < |text| then text[..cap] else text
  }

  /** Printing into `ArrayStream(ret, cap)`: the stream (defined outside this
      file) is taken to write the characters that fit into `cap` at the front
      of the buffer and nothing else. */
  method PrintInto(text: string, ret: array<char>, cap: nat)
    requires cap <= ret.Length
    modifies ret
    ensures ret[..] == Prefix(text, cap) + old(ret[|Prefix(text, cap)|..])
  {
    var m := |Prefix(text, cap)|;
    var i := 0;
    while i < m
      invariant 0 <= i <= m <= ret.Length
      modifies ret
      invariant forall k :: 0 <= k < i ==> ret[k] == text[k]
      invariant forall k :: i <= k < ret.Length ==> ret[k] == old(ret[k])
    {
      ret[i] := text[i];
      i := i + 1;
    }
    assert ret[..] == Prefix(text, cap) + old(ret[m..]);
  }

  /** `clingo_symbol_to_string` for a symbol whose printed form is `text`: a
      null size pointer is an invalid argument; a null buffer receives
      nothing and the size is set to the length of `text` plus one for the
      terminator; a buffer whose claimed size is 0 is a length error;
      otherwise the text is printed into the first `n - 1` cells. The size is
      never compared with the length of `text`, so a buffer that is too short
      receives a truncated text and the call still succeeds. */
  method SymbolToString(text: string, ret: array?<char>, n: SizeCell?) returns (r: Outcome<()>)
    requires ret != null && n != null && n.value >= 1 ==> n.value - 1 <= ret.Length
    modifies ret, n
    ensures r.Done? <==> n != null && (ret == null || 1 <= old(n.value))
    ensures n == null ==> r == Threw(InvalidArgument("size must not be null"))
    ensures n != null && ret == null ==> n.value == |text| + 1
    ensures n != null && ret != null ==> n.value == old(n.value)
    ensures n != null && ret != null && old(n.value) < 1 ==> r == Threw(LengthError("not enough space"))
    ensures ret != null && r.Threw? ==> ret[..] == old(ret[..])
    ensures ret != null && r.Done? ==>
              ret[..] == Prefix(text, n.value - 1) + old(ret[|Prefix(text, n.value - 1)|..])
  {
    if n == null {
      return Threw(InvalidArgument("size must not be null"));
    }
    if ret == null {
      n.value := |text| + 1;
      return Done(());
    }
    if n.value < 1 {
      return Threw(LengthError("not enough space"));
    }
    PrintInto(text, ret, n.value - 1);
    r := Done(());
  }

  /** A buffer one cell short of the size the query reports is not refused:
      for the printed form "p(1)" the query reports 5, and a fill call that
      claims 4 succeeds with the truncated text "p(1" followed by the cell
      the stream left alone. */
  method ShortBufferIsTruncated() returns (reported: nat, r: Outcome<()>, written: string)
    ensures reported == 5
    ensures r.Done?
    ensures written == "p(1" + ['#']
  {
    var n := new SizeCell(0);
    var _ := SymbolToString("p(1)", null, n);
    reported := n.value;
    var buf := new char[4](_ => '#');
    n.value := reported - 1;
    r := SymbolToString("p(1)", buf, n);
    written := buf[..];
  }

  /** `Symbol::to_string`: query the size, resize a string to `n - 1`, fill
      it with the same `n`. The result is exactly the printed form. */
  method ToString(tr: Exc -> ErrorCode, text: string) returns (r: Outcome<string>)
    ensures r == Done(text)
  {
    var n := new SizeCell(0);
    var query := SymbolToString(text, null, n);
    match Checked(CatchAll(tr, query), None) {
      case Threw(e) => return Threw(e);
      case Done(_) =>
    }
    var buf := new char[n.value - 1](_ => '\0');
    var fill := SymbolToString(text, buf, n);
    assert fill.Done?;
    match Checked(CatchAll(tr, fill), None) {
      case Threw(e) => return Threw(e);
      case Done(_) =>
    }
    assert buf[..] == text;
    r := Done(buf[..]);
  }

  /** `SymbolicAtoms::signatures`: query the count, fill a vector of that
      many placeholder signatures; both statuses are dropped. The result is
      exactly the engine's signatures, in its order. */
  method Signatures(sigs: seq<Signature>) returns (r: seq<Signature>)
    ensures r == sigs
  {
    var n := new SizeCell(0);
    var _ := SizeThenFill(Done(sigs), null, n);
    var buf := new Signature[n.value](_ => Signature("", 0, false));
    var _ := SizeThenFill(Done(sigs), buf, n);
    r := buf[..];
  }

  /** `Model::atoms`: query the count, fill a vector of that many default
      symbols, raising through `handleError` on either failure. The engine's
      answer (`engine`) is the same for both calls. The result is exactly the
      atoms the model selects for the show filter, in order; when the engine
      raises and the catch-all assigns the exception a code `handleError`
      raises for, the call raises what `handleError` raises for that code. */
  method Atoms(tr: Exc -> ErrorCode, engine: Outcome<seq<Symbol>>) returns (r: Outcome<seq<Symbol>>)
    requires engine.Threw? ==> IsFailure(tr(engine.exc))
    ensures engine.Done? ==> r == Done(engine.value)
    ensures engine.Threw? ==> r.Threw? && HandleError(tr(engine.exc), None) == Threw(r.exc)
  {
    var n := new SizeCell(0);
    var query := SizeThenFill(engine, null, n);
    match Checked(CatchAll(tr, query), None) {
      case Threw(e) => return Threw(e);
      case Done(_) =>
    }
    var buf := new Symbol[n.value](_ => DefaultSymbol());
    var fill := SizeThenFill(engine, buf, n);
    assert fill.Done?;
    match Checked(CatchAll(tr, fill), None) {
      case Threw(e) => return Threw(e);
      case Done(_) =>
    }
    assert buf[..] == engine.value;
    r := Done(buf[..]);
  }
}
