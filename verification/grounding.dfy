/**
 * Grounding across the boundary: the C entry point copies the program parts
 * and hands the engine a context whose external-function calls go to the
 * caller's C callback; the C++ `Control::ground` installs a C callback that
 * forwards to the user's C++ callback, turns a failed emit into the status it
 * returns, and parks any other exception so that `handleError` can raise it
 * again once the engine has given up. The grounder itself is not part of this
 * model: it is represented by the calls it makes into the context.
 */
module Grounding {
  import opened Boundary
  import opened Values

  /** A program part to ground (`clingo_part_t`, and an element of
      `Control::GroundVec`): its name and the symbols for its parameters. */
  datatype Part = Part(name: string, params: seq<Symbol>)

  /** The symbols of a sequence of spans, one after the other. */
  function Flatten(spans: seq<seq<Symbol>>): (r: seq<Symbol>)
    ensures spans == [] ==> r == []
  {
    if spans == [] then [] else spans[0] + Flatten(spans[1..])
  }

  /** Flattening distributes over concatenation. */
  lemma {:induction false} FlattenConcat(a: seq<seq<Symbol>>, b: seq<seq<Symbol>>)
    ensures Flatten(a + b) == Flatten(a) + Flatten(b)
  {
    if a == [] {
      assert a + b == b;
    } else {
      assert (a + b)[1..] == a[1..] + b;
      FlattenConcat(a[1..], b);
    }
  }

  /** So emitting one more span extends the flattened result by that span. */
  lemma FlattenSnoc(a: seq<seq<Symbol>>, s: seq<Symbol>)
    ensures Flatten(a + [s]) == Flatten(a) + s
  {
    FlattenConcat(a, [s]);
    assert Flatten([s]) == s + Flatten([]);
  }

  /** What the caller's C ground callback does in one call: the spans it
      hands to the emit callback, in order, and the status it returns. */
  datatype CallbackRun = CallbackRun(emits: seq<seq<Symbol>>, status: ErrorCode)

  /** `ClingoContext`: the context the engine consults during grounding.
      `hasCallback` is whether a C callback was given; `ret` collects the
      symbols the callback emits during a call. */
  class ClingoContext {
    const hasCallback: bool
    var ret: seq<Symbol>

    constructor (hasCallback: bool)
      ensures this.hasCallback == hasCallback && ret == []
    {
      this.hasCallback := hasCallback;
      ret := [];
    }

    /** `callable`: every name is callable when a callback was given, none
        otherwise. */
    predicate Callable(name: string)
      ensures Callable(name) <==> hasCallback
    {
      hasCallback
    }

    /** The emit callback handed to the C callback: appends the span's
        symbols, in order, to `ret` and reports success. */
    method Emit(span: seq<Symbol>) returns (status: ErrorCode)
      modifies this
      ensures status == Success
      ensures ret == old(ret) + span
    {
      var i := 0;
      while i < |span|
        invariant 0 <= i <= |span|
        invariant ret == old(ret) + span[..i]
      {
        ret := ret + [span[i]];
        i := i + 1;
      }
      assert span[..i] == span;
      status := Success;
    }

    /** `call`: runs the C callback, which emits spans and returns a status.
        A non-zero status raises `ClingoError` with that status and leaves the
        emitted symbols in `ret`; otherwise `ret` is moved out as the result,
        preceded by whatever it already held, and is left empty. */
    method Call(run: CallbackRun) returns (r: Outcome<seq<Symbol>>)
      requires hasCallback
      modifies this
      ensures run.status == Success ==> r == Done(old(ret) + Flatten(run.emits)) && ret == []
      ensures run.status != Success ==>
                r == Threw(ClingoError(run.status)) && ret == old(ret) + Flatten(run.emits)
    {
      var i := 0;
      while i < |run.emits|
        invariant 0 <= i <= |run.emits|
        invariant ret == old(ret) + Flatten(run.emits[..i])
      {
        var _ := Emit(run.emits[i]);
        FlattenSnoc(run.emits[..i], run.emits[i]);
        assert run.emits[..i + 1] == run.emits[..i] + [run.emits[i]];
        i := i + 1;
      }
      assert run.emits[..i] == run.emits;
      if run.status != Success {
        return Threw(ClingoError(run.status));
      }
      r := Done(ret);
      ret := [];
    }
  }

  /** `ret` is not cleared when a call starts: the symbols a failed call
      emitted come back at the front of the next successful call on the same
      context. This is reachable only if the grounder survives the
      `ClingoError` a failed call raises and calls the context again; inside
      `Control::ground`, where a failed call is taken to end grounding
      (`GroundCall`), it is not. */
  method CallAfterFailure(ctx: ClingoContext, failed: CallbackRun, next: CallbackRun)
      returns (r1: Outcome<seq<Symbol>>, r2: Outcome<seq<Symbol>>)
    requires ctx.hasCallback && ctx.ret == []
    requires failed.status != Success && next.status == Success
    modifies ctx
    ensures r1 == Threw(ClingoError(failed.status))
    ensures r2 == Done(Flatten(failed.emits) + Flatten(next.emits))
    ensures ctx.ret == []
  {
    r1 := ctx.Call(failed);
    assert ctx.ret == Flatten(failed.emits);
    r2 := ctx.Call(next);
  }

  /** `clingo_control_ground` up to the engine call: copies every part, name
      and parameters in order, and constructs the context, which is handed to
      the engine only when a callback was given. */
  method ControlGround(parts: seq<Part>, hasCallback: bool) returns (gv: seq<Part>, ctx: ClingoContext?)
    ensures gv == parts
    ensures ctx != null <==> hasCallback
    ensures ctx != null ==> fresh(ctx) && ctx.ret == [] && forall name :: ctx.Callable(name)
  {
    gv := [];
    var i := 0;
    while i < |parts|
      invariant 0 <= i <= |parts|
      invariant gv == parts[..i]
    {
      var params: seq<Symbol> := [];
      var j := 0;
      while j < |parts[i].params|
        invariant 0 <= j <= |parts[i].params|
        invariant params == parts[i].params[..j]
      {
        params := params + [parts[i].params[j]];
        j := j + 1;
      }
      assert params == parts[i].params;
      gv := gv + [Part(parts[i].name, params)];
      i := i + 1;
    }
    assert gv == parts;
    var cctx := new ClingoContext(hasCallback);
    ctx := if hasCallback then cctx else null;
  }

  /** How many spans were handed on and the status of the last one. */
  datatype Forwarded = Forwarded(count: nat, status: ErrorCode)

  /** The emit function `Control::ground` gives the user's callback: each span
      goes to the C emit callback `sink`; the first status other than
      success is reported, and nothing after it is forwarded, on the
      assumption that the `Ret` exception it raises ends the user's callback
      (a callback that catches `Ret` is not modelled). */
  function Forward(emits: seq<seq<Symbol>>, sink: seq<Symbol> -> ErrorCode): (r: Forwarded)
    ensures r.count <= |emits|
    ensures forall i :: 0 <= i < r.count && (r.status == Success || i < r.count - 1) ==> sink(emits[i]) == Success
    ensures r.status == Success ==> r.count == |emits|
    ensures r.status != Success ==> 0 < r.count && sink(emits[r.count - 1]) == r.status
  {
    if emits == [] then Forwarded(0, Success)
    else
      var status := sink(emits[0]);
      if status != Success then Forwarded(1, status)
      else
        var rest := Forward(emits[1..], sink);
        Forwarded(rest.count + 1, rest.status)
  }

  /** What the user's C++ ground callback does in one call: the spans it
      emits, in order, and how it ends (`Some(e)`: by raising `e`). */
  datatype UserRun = UserRun(emits: seq<seq<Symbol>>, ending: Option<Exc>)

  /** One run of the C callback `Control::ground` installs: the spans it
      handed to the C emit callback, the status it returns, and the
      exception slot afterwards. */
  datatype BridgeRun = BridgeRun(forwarded: seq<seq<Symbol>>, code: ErrorCode, slot: Option<Exc>)

  /** The C callback of `Control::ground`. An empty user callback does
      nothing and reports success. Otherwise the user's callback runs with
      `Forward` as its emit function: a failed emit, whose `Ret` exception is
      taken to end the user's callback, is returned as it is; an
      exception raised by the user's callback is parked in the slot and
      reported as `Unknown`; a callback that completes reports success. */
  function Bridge(user: Option<UserRun>, sink: seq<Symbol> -> ErrorCode, slot: Option<Exc>): (r: BridgeRun)
    ensures user.None? ==> r == BridgeRun([], Success, slot)
    ensures user.Some? ==> r.forwarded <= user.value.emits
    ensures user.Some? ==> forall i :: 0 <= i < |r.forwarded| - 1 ==> sink(r.forwarded[i]) == Success
    ensures user.Some? && (exists s :: s in user.value.emits && sink(s) != Success) ==>
              && 0 < |r.forwarded|
              && r.code == sink(r.forwarded[|r.forwarded| - 1])
              && r.code != Success
              && r.slot == slot
    ensures user.Some? && (forall s :: s in user.value.emits ==> sink(s) == Success) ==>
              && r.forwarded == user.value.emits
              && (user.value.ending.None? ==> r.code == Success && r.slot == slot)
              && (user.value.ending.Some? ==> r.code == Unknown && r.slot == user.value.ending)
  {
    match user
    case None =>
      var c := CallbackCatch(FellThrough, slot);
      BridgeRun([], c.code, c.slot)
    case Some(u) =>
      var f := Forward(u.emits, sink);
      var body :=
        if f.status != Success then ReturnedEarly(f.status)
        else if u.ending.Some? then Escaped(u.ending.value)
        else FellThrough;
      var c := CallbackCatch(body, slot);
      BridgeRun(u.emits[..f.count], c.code, c.slot)
  }

  /** An exception raised by the user's callback, after every emit
      succeeded, is the exception `handleError` raises from the status and
      slot the bridge leaves behind. */
  lemma BridgeRethrows(u: UserRun, sink: seq<Symbol> -> ErrorCode, slot: Option<Exc>)
    requires forall s :: s in u.emits ==> sink(s) == Success
    requires u.ending.Some?
    ensures var b := Bridge(Some(u), sink, slot); HandleError(b.code, b.slot) == Threw(u.ending.value)
  {
    CallbackCatchRethrows(u.ending.value, slot);
  }

  /** One external-function call during `Control::ground`, end to end: the
      engine calls the context, whose C callback is the bridge around the
      user's callback and whose emit callback is `ClingoContext::Emit`. A
      failed call is taken to abort grounding; the resulting exception passes
      through the catch-all of `clingo_control_ground` and then through
      `handleError` with the bridge's slot. The user's symbols reach the
      grounder in order; an exception of the user's reaches the caller as
      itself, provided the catch-all keeps `Unknown` for a `ClingoError`
      carrying it. */
  method GroundCall(tr: Exc -> ErrorCode, ctx: ClingoContext, user: Option<UserRun>, slot: Option<Exc>)
      returns (r: Outcome<seq<Symbol>>, slotAfter: Option<Exc>)
    requires ctx.hasCallback && ctx.ret == []
    modifies ctx
    ensures user.None? ==> r == Done([]) && slotAfter == slot
    ensures user.Some? && user.value.ending.None? ==> r == Done(Flatten(user.value.emits)) && slotAfter == slot
    ensures user.Some? && user.value.ending.Some? ==> slotAfter == user.value.ending
    ensures user.Some? && user.value.ending.Some? && tr(ClingoError(Unknown)) == Unknown ==>
              r == Threw(user.value.ending.value)
  {
    var sink := (s: seq<Symbol>) => Success;
    var b := Bridge(user, sink, slot);
    slotAfter := b.slot;
    assert user.Some? ==> b.forwarded == user.value.emits;
    ghost var before := ctx.ret;
    var called := ctx.Call(CallbackRun(b.forwarded, b.code));
    assert b.code == Success ==> called == Done(before + Flatten(b.forwarded));
    assert before + Flatten(b.forwarded) == Flatten(b.forwarded);
    match called
    case Done(syms) =>
      r := Done(syms);
    case Threw(e) =>
      match HandleError(CatchAll<()>(tr, Threw(e)).status, b.slot)
      case Threw(raised) =>
        r := Threw(raised);
      case Done(_) =>
        r := Done([]);
  }
}
