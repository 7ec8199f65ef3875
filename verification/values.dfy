/**
 * The value types that cross the boundary: symbols and signatures, the C
 * accessors that check a symbol's variant before reading a field, their C++
 * wrappers, the default symbol, and the comparison operators the C++ side
 * derives from `eq` and `lt`. How symbols are compared, hashed and printed is
 * defined outside this file and stays abstract here.
 */
module Values {
  import opened Boundary

  newtype int32 = x: int | -0x8000_0000 <= x < 0x8000_0000
  newtype uint32 = x: int | 0 <= x < 0x1_0000_0000

  /** A symbol: a number, one of the two sentinels, a string, or a
      (possibly classically negated) function term. */
  datatype Symbol =
    | Num(num: int32)
    | Inf
    | Sup
    | Str(str: string)
    | Fun(name: string, args: seq<Symbol>, sign: bool)

  /** `clingo_symbol_type_t`: the variant tag of a symbol. */
  datatype SymbolType = InfType | NumType | StrType | FunType | SupType

  /** A signature: name, arity and sign of a family of atoms. */
  datatype Signature = Signature(name: string, arity: uint32, sign: bool)

  /** `clingo_symbol_type`. */
  function TypeOf(s: Symbol): (t: SymbolType)
    ensures t == NumType <==> s.Num?
    ensures t == StrType <==> s.Str?
    ensures t == FunType <==> s.Fun?
    ensures t == InfType <==> s == Inf
    ensures t == SupType <==> s == Sup
  {
    match s
    case Num(_) => NumType
    case Inf => InfType
    case Sup => SupType
    case Str(_) => StrType
    case Fun(_, _, _) => FunType
  }

  /** `clingo_symbol_num`: the number of a `Num` symbol; any other variant
      fails the `clingo_expect` check and nothing is read. */
  function SymbolNum(s: Symbol): (r: Outcome<int32>)
    ensures r.Done? <==> TypeOf(s) == NumType
    ensures r.Done? ==> s == Num(r.value)
    ensures r.Threw? ==> r.exc == ExpectViolation
  {
    if TypeOf(s) == NumType then Done(s.num) else Threw(ExpectViolation)
  }

  /** `clingo_symbol_name`: the name of a function symbol. */
  function SymbolName(s: Symbol): (r: Outcome<string>)
    ensures r.Done? <==> TypeOf(s) == FunType
    ensures r.Done? ==> s == Fun(r.value, s.args, s.sign)
    ensures r.Threw? ==> r.exc == ExpectViolation
  {
    if TypeOf(s) == FunType then Done(s.name) else Threw(ExpectViolation)
  }

  /** `clingo_symbol_string`: the text of a string symbol. */
  function SymbolString(s: Symbol): (r: Outcome<string>)
    ensures r.Done? <==> TypeOf(s) == StrType
    ensures r.Done? ==> s == Str(r.value)
    ensures r.Threw? ==> r.exc == ExpectViolation
  {
    if TypeOf(s) == StrType then Done(s.str) else Threw(ExpectViolation)
  }

  /** `clingo_symbol_sign`: the sign of a function symbol. */
  function SymbolSign(s: Symbol): (r: Outcome<bool>)
    ensures r.Done? <==> TypeOf(s) == FunType
    ensures r.Done? ==> s == Fun(s.name, s.args, r.value)
    ensures r.Threw? ==> r.exc == ExpectViolation
  {
    if TypeOf(s) == FunType then Done(s.sign) else Threw(ExpectViolation)
  }

  /** `clingo_symbol_args`: the arguments of a function symbol, in order. */
  function SymbolArgs(s: Symbol): (r: Outcome<seq<Symbol>>)
    ensures r.Done? <==> TypeOf(s) == FunType
    ensures r.Done? ==> s == Fun(s.name, r.value, s.sign)
    ensures r.Threw? ==> r.exc == ExpectViolation
  {
    if TypeOf(s) == FunType then Done(s.args) else Threw(ExpectViolation)
  }

  /** The C++ side of a checked C accessor: `handleError(c_call(..., &ret));
      return ret;` with no stored exception. When the catch-all assigns the
      accessor's exception a code `handleError` raises for, the value read is
      returned unchanged and a failure raises what `handleError` raises for
      that code. */
  function Lift<T>(tr: Exc -> ErrorCode, body: Outcome<T>): (r: Outcome<T>)
    requires body.Threw? ==> IsFailure(tr(body.exc))
    ensures body.Done? ==> r == body
    ensures body.Threw? ==> r.Threw? && HandleError(tr(body.exc), None) == Threw(r.exc)
  {
    match Checked(CatchAll(tr, body), None)
    case Threw(e) => Threw(e)
    case Done(_) => body
  }

  /** `Symbol::num`. */
  function NumOf(tr: Exc -> ErrorCode, s: Symbol): (r: Outcome<int32>)
    requires IsFailure(tr(ExpectViolation))
    ensures r.Done? <==> s.Num?
    ensures r.Done? ==> s == Num(r.value)
  {
    Lift(tr, SymbolNum(s))
  }

  /** `Symbol::name`. */
  function NameOf(tr: Exc -> ErrorCode, s: Symbol): (r: Outcome<string>)
    requires IsFailure(tr(ExpectViolation))
    ensures r.Done? <==> s.Fun?
    ensures r.Done? ==> r.value == s.name
  {
    Lift(tr, SymbolName(s))
  }

  /** `Symbol::string`. */
  function StringOf(tr: Exc -> ErrorCode, s: Symbol): (r: Outcome<string>)
    requires IsFailure(tr(ExpectViolation))
    ensures r.Done? <==> s.Str?
    ensures r.Done? ==> s == Str(r.value)
  {
    Lift(tr, SymbolString(s))
  }

  /** `Symbol::sign`. */
  function SignOf(tr: Exc -> ErrorCode, s: Symbol): (r: Outcome<bool>)
    requires IsFailure(tr(ExpectViolation))
    ensures r.Done? <==> s.Fun?
    ensures r.Done? ==> r.value == s.sign
  {
    Lift(tr, SymbolSign(s))
  }

  /** `Symbol::args`. */
  function ArgsOf(tr: Exc -> ErrorCode, s: Symbol): (r: Outcome<seq<Symbol>>)
    requires IsFailure(tr(ExpectViolation))
    ensures r.Done? <==> s.Fun?
    ensures r.Done? ==> r.value == s.args
  {
    Lift(tr, SymbolArgs(s))
  }

  /** With the usual mapping of a `clingo_expect` failure to a logic error, a
      C++ accessor applied to the wrong variant raises `logic_error`. */
  lemma WrongVariantRaisesLogicError(tr: Exc -> ErrorCode, s: Symbol)
    requires tr(ExpectViolation) == Logic
    ensures !s.Num? ==> NumOf(tr, s) == Threw(LogicError("logic error"))
    ensures !s.Str? ==> StringOf(tr, s) == Threw(LogicError("logic error"))
    ensures !s.Fun? ==> NameOf(tr, s) == Threw(LogicError("logic error"))
    ensures !s.Fun? ==> SignOf(tr, s) == Threw(LogicError("logic error"))
    ensures !s.Fun? ==> ArgsOf(tr, s) == Threw(LogicError("logic error"))
  {
  }

  /** The symbol a default-constructed `Symbol` holds. */
  function DefaultSymbol(): (s: Symbol)
    ensures SymbolNum(s) == Done(0)
  {
    Num(0)
  }

  /** The C++ comparison operators of `Signature` and `Symbol`, each defined
      from the C functions `eq` and `lt` alone. */
  /** `!=`: inequality whenever `eq` is equality. */
  function NotEqual<T(!new)>(eq: (T, T) -> bool, a: T, b: T): (r: bool)
    ensures IsEquality(eq) ==> (r <==> a != b)
  {
    !eq(a, b)
  }

  /** `<=`: less or equal whenever `lt` is a strict total order. */
  function LessEqual<T(!new)>(lt: (T, T) -> bool, a: T, b: T): (r: bool)
    ensures StrictOrder(lt) ==> (r <==> lt(a, b) || a == b)
  {
    !lt(b, a)
  }

  /** `>`: neither less nor equal whenever `lt` is a strict total order. */
  function Greater<T(!new)>(lt: (T, T) -> bool, a: T, b: T): (r: bool)
    ensures StrictOrder(lt) ==> (r <==> !lt(a, b) && a != b)
  {
    lt(b, a)
  }

  /** `>=`: greater or equal whenever `lt` is a strict total order. */
  function GreaterEqual<T(!new)>(lt: (T, T) -> bool, a: T, b: T): (r: bool)
    ensures StrictOrder(lt) ==> (r <==> lt(b, a) || a == b)
  {
    !lt(a, b)
  }

  /** `eq` is structural equality. */
  ghost predicate IsEquality<T(!new)>(eq: (T, T) -> bool) {
    forall a, b :: eq(a, b) <==> a == b
  }

  /** `lt` is irreflexive, transitive and total. */
  ghost predicate StrictOrder<T(!new)>(lt: (T, T) -> bool) {
    && (forall a :: !lt(a, a))
    && (forall a, b, c :: lt(a, b) && lt(b, c) ==> lt(a, c))
    && (forall a, b :: a != b ==> lt(a, b) || lt(b, a))
  }

  /** `eq` is structural equality and `lt` a strict total order. */
  ghost predicate StrictTotalOrder<T(!new)>(eq: (T, T) -> bool, lt: (T, T) -> bool) {
    IsEquality(eq) && StrictOrder(lt)
  }

  /** When `eq` and `lt` form a strict total order, the derived operators mean
      what their names say: exactly one of `<`, `==`, `>` holds, `<=` is `<` or
      `==`, `>=` is `<=` reversed, and `!=` is inequality. */
  lemma DerivedComparisons<T(!new)>(eq: (T, T) -> bool, lt: (T, T) -> bool, a: T, b: T)
    requires StrictTotalOrder(eq, lt)
    ensures LessEqual(lt, a, b) <==> lt(a, b) || eq(a, b)
    ensures GreaterEqual(lt, a, b) <==> LessEqual(lt, b, a)
    ensures GreaterEqual(lt, a, b) <==> Greater(lt, a, b) || eq(a, b)
    ensures NotEqual(eq, a, b) <==> a != b
    ensures lt(a, b) || eq(a, b) || Greater(lt, a, b)
    ensures lt(a, b) ==> !eq(a, b) && !Greater(lt, a, b)
    ensures eq(a, b) ==> !Greater(lt, a, b)
  {
  }

  /** Under the same assumption the derived `<=` is a total order. */
  lemma LessEqualIsTotalOrder<T(!new)>(eq: (T, T) -> bool, lt: (T, T) -> bool, a: T, b: T, c: T)
    requires StrictTotalOrder(eq, lt)
    ensures LessEqual(lt, a, a)
    ensures LessEqual(lt, a, b) || LessEqual(lt, b, a)
    ensures LessEqual(lt, a, b) && LessEqual(lt, b, a) ==> a == b
    ensures LessEqual(lt, a, b) && LessEqual(lt, b, c) ==> LessEqual(lt, a, c)
  {
  }
}
