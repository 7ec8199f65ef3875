/**
 * The C++ getters of `SymbolicAtom`, which read one field of an atom of the
 * engine's atom index through the matching C call and drop its status. The
 * index itself is the engine's; each getter is given what the engine does
 * for the read: the value, or the exception it raises.
 */
module AtomIndex {
  import opened Boundary
  import opened Values

  /** `SymbolicAtom::symbol`: the atom's symbol; when the engine raises, the
      status is dropped and the default-constructed symbol, number 0, comes
      back in its place. */
  function AtomSymbol(tr: Exc -> ErrorCode, engine: Outcome<Symbol>): (s: Symbol)
    ensures engine.Done? ==> s == engine.value
    ensures engine.Threw? ==> s == DefaultSymbol() && SymbolNum(s) == Done(0)
  {
    match Unchecked(tr, engine)
    case Some(v) => v
    case None => DefaultSymbol()
  }

  /** So a failed read cannot be told apart from an atom whose symbol is the
      number 0. */
  lemma FailedReadLooksLikeZero(tr: Exc -> ErrorCode, e: Exc)
    ensures AtomSymbol(tr, Threw(e)) == AtomSymbol(tr, Done(Num(0)))
  {
  }

  /** `SymbolicAtom::literal`, `fact` and `external`: the field the engine
      reads, or nothing determinate (`None`: the uninitialised local) when
      it raises; no exception reaches the caller. */
  function AtomField<T>(tr: Exc -> ErrorCode, engine: Outcome<T>): (r: Option<T>)
    ensures engine.Done? <==> r.Some?
    ensures r.Some? ==> r.value == engine.value
  {
    Unchecked(tr, engine)
  }
}
