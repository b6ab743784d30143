/**
 * The argument binder and result interpreter that every plugin-side call goes
 * through (shared/utils.go): `convertArgs` checks the arity against the declared
 * parameters, treating a slice-typed last parameter as variadic, and binds each
 * argument by exact type, by conversion or as a zero value; `call` maps the
 * native return values to a `(value, error)` pair; `CallFunc` chains the two.
 *
 * Go's reflection is abstracted: a type is a base type or a slice of a type,
 * `ConvertibleTo` is the parameter `conv`, and the native function is its
 * declared parameter list plus a body that maps bound arguments to return values.
 */
module Marshal {
  import opened Wrappers

  /** A Go type as far as binding looks at it; `Slice?` is `Kind() == reflect.Slice`. */
  datatype Ty = Base(id: nat) | Slice(elem: Ty)

  /** A non-nil `interface{}` argument: its dynamic type and its payload. */
  datatype Arg<V> = Arg(ty: Ty, v: V)

  /** What `convertArgs` stores in `argumentsValue[i]`. */
  datatype Bound<V> =
    | ZeroOf(ty: Ty)                    // reflect.Zero of the declared parameter type
    | AsIs(arg: Arg<V>)                 // reflect.ValueOf(argument), unchanged
    | ConvertedTo(arg: Arg<V>, ty: Ty)  // argumentValue.Convert(expected type)

  /** The error values of the core. */
  datatype Error =
    | ArityMismatch(declared: nat, got: nat)                // "function expect %d arguments, but got %d"
    | SliceElemMismatch(index: nat, expected: Ty, actual: Ty) // "function argument %d's slice element type is not match ..."
    | NotConvertible(index: nat, expected: Ty, actual: Ty)    // "function argument %d's type is neither match nor convertible ..."
    | NilPastParams(index: nat)   // nil past the declared parameters: reflect's In(index) panics
    | TooManyResults              // "function should return at most 2 values"
    | FunctionNotFound(name: string)  // "function %s not found"
    | Custom(message: string)     // an error value produced by a plugin function or a remote side

  /** A native return value, as `Interface()` sees it. */
  datatype Any<V> = Nil | ErrorValue(err: Error) | Plain(v: V)

  /** The `(interface{}, error)` pair a call produces, or a runtime panic. */
  datatype Reply<V> = Reply(value: Any<V>, err: Option<Error>) | Panicked

  /** A function handle: its declared parameter types, whether it is variadic (`...T`,
      whose last parameter type is then []T), and its native behaviour. */
  datatype Func<!V> = Func(params: seq<Ty>, variadic: bool, body: seq<Bound<V>> -> seq<Any<V>>)

  predicate LastIsSlice(params: seq<Ty>) {
    |params| > 0 && params[|params| - 1].Slice?
  }

  /** The arity check of convertArgs: exact, unless the last parameter is a slice. */
  predicate ArityOk(params: seq<Ty>, n: nat) {
    n == |params| || LastIsSlice(params)
  }

  /** Positions checked against the slice element type: the declared slice position and everything after it. */
  predicate InTail(params: seq<Ty>, i: nat) {
    (i == |params| - 1 && LastIsSlice(params)) || i > |params| - 1
  }

  /** Exact match first, then conversion, else an error naming the index. */
  function Coerce<V>(i: nat, want: Ty, arg: Arg<V>, conv: (Ty, Ty) -> bool): Result<Bound<V>, Error> {
    if arg.ty == want then Success(AsIs(arg))
    else if conv(arg.ty, want) then Success(ConvertedTo(arg, want))
    else Failure(NotConvertible(i, want, arg.ty))
  }

  /** The decision convertArgs takes at position `i`; `None` is a nil argument. */
  function BindAt<V>(params: seq<Ty>, i: nat, a: Option<Arg<V>>, conv: (Ty, Ty) -> bool): Result<Bound<V>, Error>
    requires i < |params| || LastIsSlice(params)
  {
    match a
    case None =>
      if i < |params| then Success(ZeroOf(params[i])) else Failure(NilPastParams(i))
    case Some(arg) =>
      if InTail(params, i) then
        var want := params[|params| - 1].elem;
        if arg.ty.Slice? then
          if arg.ty.elem != want then Failure(SliceElemMismatch(i, want, arg.ty))
          else Success(AsIs(arg))
        else Coerce(i, want, arg, conv)
      else Coerce(i, params[i], arg, conv)
  }

  function BindFrom<V>(params: seq<Ty>, args: seq<Option<Arg<V>>>, i: nat, conv: (Ty, Ty) -> bool): Result<seq<Bound<V>>, Error>
    requires ArityOk(params, |args|) && i <= |args|
    decreases |args| - i
  {
    if i == |args| then Success([])
    else
      match BindAt(params, i, args[i], conv)
      case Failure(e) => Failure(e)
      case Success(b) =>
        match BindFrom(params, args, i + 1, conv)
        case Failure(e) => Failure(e)
        case Success(rest) => Success([b] + rest)
  }

  /** The result of convertArgs, as a function of the declared parameters and the arguments. */
  function Convert<V>(params: seq<Ty>, args: seq<Option<Arg<V>>>, conv: (Ty, Ty) -> bool): Result<seq<Bound<V>>, Error> {
    if !ArityOk(params, |args|) then Failure(ArityMismatch(|params|, |args|))
    else BindFrom(params, args, 0, conv)
  }

  predicate AllBind<V>(params: seq<Ty>, args: seq<Option<Arg<V>>>, conv: (Ty, Ty) -> bool)
    requires ArityOk(params, |args|)
  {
    forall j :: 0 <= j < |args| ==> BindAt(params, j, args[j], conv).Success?
  }

  lemma {:induction false} BindFromAllBound<V>(params: seq<Ty>, args: seq<Option<Arg<V>>>, i: nat, conv: (Ty, Ty) -> bool)
    requires ArityOk(params, |args|) && i <= |args|
    requires forall j :: i <= j < |args| ==> BindAt(params, j, args[j], conv).Success?
    ensures BindFrom(params, args, i, conv).Success?
    ensures |BindFrom(params, args, i, conv).value| == |args| - i
    ensures forall j :: i <= j < |args| ==> BindFrom(params, args, i, conv).value[j - i] == BindAt(params, j, args[j], conv).value
    decreases |args| - i
  {
    if i < |args| {
      BindFromAllBound(params, args, i + 1, conv);
    }
  }

  lemma {:induction false} BindFromFailsAt<V>(params: seq<Ty>, args: seq<Option<Arg<V>>>, i: nat, k: nat, conv: (Ty, Ty) -> bool)
    requires ArityOk(params, |args|) && i <= k < |args|
    requires forall j :: i <= j < k ==> BindAt(params, j, args[j], conv).Success?
    requires BindAt(params, k, args[k], conv).Failure?
    ensures BindFrom(params, args, i, conv) == Failure(BindAt(params, k, args[k], conv).error)
    decreases k - i
  {
    if i < k {
      BindFromFailsAt(params, args, i + 1, k, conv);
    }
  }

  /** When every position binds, the result holds exactly one binding per argument, in order. */
  lemma ConvertAllBound<V>(params: seq<Ty>, args: seq<Option<Arg<V>>>, conv: (Ty, Ty) -> bool)
    requires ArityOk(params, |args|) && AllBind(params, args, conv)
    ensures Convert(params, args, conv).Success?
    ensures |Convert(params, args, conv).value| == |args|
    ensures forall j :: 0 <= j < |args| ==> Convert(params, args, conv).value[j] == BindAt(params, j, args[j], conv).value
  {
    BindFromAllBound(params, args, 0, conv);
  }

  /** Binding stops at the first failing position and reports that position's error. */
  lemma ConvertFailsAt<V>(params: seq<Ty>, args: seq<Option<Arg<V>>>, k: nat, conv: (Ty, Ty) -> bool)
    requires ArityOk(params, |args|) && k < |args|
    requires forall j :: 0 <= j < k ==> BindAt(params, j, args[j], conv).Success?
    requires BindAt(params, k, args[k], conv).Failure?
    ensures Convert(params, args, conv) == Failure(BindAt(params, k, args[k], conv).error)
  {
    BindFromFailsAt(params, args, 0, k, conv);
  }

  /** Conversion succeeds exactly when the arity check passes and every position binds. */
  lemma {:induction false} ConvertSucceedsIff<V>(params: seq<Ty>, args: seq<Option<Arg<V>>>, conv: (Ty, Ty) -> bool)
    ensures Convert(params, args, conv).Success? <==> ArityOk(params, |args|) && AllBind(params, args, conv)
  {
    if ArityOk(params, |args|) {
      if AllBind(params, args, conv) {
        ConvertAllBound(params, args, conv);
      } else {
        var k := FirstFailure(params, args, 0, conv);
        ConvertFailsAt(params, args, k, conv);
      }
    }
  }

  /** The smallest position from `i` on that does not bind. */
  function FirstFailure<V>(params: seq<Ty>, args: seq<Option<Arg<V>>>, i: nat, conv: (Ty, Ty) -> bool): (k: nat)
    requires ArityOk(params, |args|) && i <= |args|
    requires exists j :: i <= j < |args| && BindAt(params, j, args[j], conv).Failure?
    ensures i <= k < |args| && BindAt(params, k, args[k], conv).Failure?
    ensures forall j :: i <= j < k ==> BindAt(params, j, args[j], conv).Success?
    decreases |args| - i
  {
    if BindAt(params, i, args[i], conv).Failure? then i else FirstFailure(params, args, i + 1, conv)
  }

  /** A failed conversion reports an arity mismatch exactly when the arity check fails:
      without a slice-typed last parameter the count must equal the parameter count,
      and with one any count passes. */
  lemma {:induction false} ConvertArity<V>(params: seq<Ty>, args: seq<Option<Arg<V>>>, conv: (Ty, Ty) -> bool)
    ensures (Convert(params, args, conv).Failure? && Convert(params, args, conv).error.ArityMismatch?)
            <==> !ArityOk(params, |args|)
    ensures !ArityOk(params, |args|) ==> Convert(params, args, conv) == Failure(ArityMismatch(|params|, |args|))
  {
    if ArityOk(params, |args|) && Convert(params, args, conv).Failure? {
      ConvertSucceedsIff(params, args, conv);
      var k := FirstFailure(params, args, 0, conv);
      ConvertFailsAt(params, args, k, conv);
    }
  }

  /** A failed conversion past the arity check names the first position that does not bind. */
  lemma {:induction false} ConvertFirstFailure<V>(params: seq<Ty>, args: seq<Option<Arg<V>>>, conv: (Ty, Ty) -> bool)
    requires ArityOk(params, |args|) && Convert(params, args, conv).Failure?
    ensures exists k :: (0 <= k < |args|
      && (forall j :: 0 <= j < k ==> BindAt(params, j, args[j], conv).Success?)
      && BindAt(params, k, args[k], conv).Failure?
      && Convert(params, args, conv) == Failure(BindAt(params, k, args[k], conv).error))
  {
    ConvertSucceedsIff(params, args, conv);
    var k := FirstFailure(params, args, 0, conv);
    ConvertFailsAt(params, args, k, conv);
  }

  /** A nil argument within the declared parameters binds to that parameter's zero value and is never dropped. */
  lemma BindsNilToZero<V>(params: seq<Ty>, args: seq<Option<Arg<V>>>, conv: (Ty, Ty) -> bool, i: nat)
    requires Convert(params, args, conv).Success? && i < |args| && i < |params| && args[i].None?
    ensures |Convert(params, args, conv).value| == |args|
    ensures Convert(params, args, conv).value[i] == ZeroOf(params[i])
  {
    ConvertSucceedsIff(params, args, conv);
    ConvertAllBound(params, args, conv);
  }

  /** In the variadic tail a slice argument is kept unchanged when its element type is the
      slice parameter's element type, and rejected otherwise. */
  lemma TailSliceArgument<V>(params: seq<Ty>, args: seq<Option<Arg<V>>>, conv: (Ty, Ty) -> bool, i: nat)
    requires LastIsSlice(params) && |params| - 1 <= i < |args|
    requires args[i].Some? && args[i].value.ty.Slice?
    ensures var want := params[|params| - 1].elem;
      args[i].value.ty.elem == want <==> BindAt(params, i, args[i], conv) == Success(AsIs(args[i].value))
    ensures args[i].value.ty.elem != params[|params| - 1].elem ==>
      BindAt(params, i, args[i], conv) == Failure(SliceElemMismatch(i, params[|params| - 1].elem, args[i].value.ty))
    ensures Convert(params, args, conv).Success? ==>
      |Convert(params, args, conv).value| == |args| && Convert(params, args, conv).value[i] == AsIs(args[i].value)
  {
    if Convert(params, args, conv).Success? {
      ConvertSucceedsIff(params, args, conv);
      ConvertAllBound(params, args, conv);
    }
  }

  /** The type each non-nil argument is checked against: the slice element type in the tail, else the declared type. */
  function Expected(params: seq<Ty>, i: nat): Ty
    requires i < |params| || LastIsSlice(params)
  {
    if InTail(params, i) then params[|params| - 1].elem else params[i]
  }

  /** Any other non-nil argument is kept when its type is the expected one, converted when
      it is convertible, and otherwise rejected with an error naming its position. */
  lemma CoercedArgument<V>(params: seq<Ty>, args: seq<Option<Arg<V>>>, conv: (Ty, Ty) -> bool, i: nat)
    requires ArityOk(params, |args|) && i < |args|
    requires args[i].Some? && !(InTail(params, i) && args[i].value.ty.Slice?)
    ensures var a, t := args[i].value, Expected(params, i);
      && (a.ty == t ==> BindAt(params, i, args[i], conv) == Success(AsIs(a)))
      && (a.ty != t && conv(a.ty, t) ==> BindAt(params, i, args[i], conv) == Success(ConvertedTo(a, t)))
      && (a.ty != t && !conv(a.ty, t) ==> BindAt(params, i, args[i], conv) == Failure(NotConvertible(i, t, a.ty)))
  {
  }

  /** convertArgs: fills an array of bound values position by position and returns at the first error. */
  method ConvertArgs<V>(params: seq<Ty>, args: seq<Option<Arg<V>>>, conv: (Ty, Ty) -> bool)
    returns (r: Result<seq<Bound<V>>, Error>)
    ensures r == Convert(params, args, conv)
  {
    var n := |params|;
    if |args| != n && (n == 0 || !params[n - 1].Slice?) {
      return Failure(ArityMismatch(n, |args|));
    }
    var values := new Bound<V>[|args|](_ => ZeroOf(Base(0)));
    for index := 0 to |args|
      invariant forall j :: 0 <= j < index ==> BindAt(params, j, args[j], conv) == Success(values[j])
    {
      var argument := args[index];
      if argument.None? {
        if index >= n {
          ConvertFailsAt(params, args, index, conv);
          return Failure(NilPastParams(index));
        }
        values[index] := ZeroOf(params[index]);
        continue;
      }
      var arg := argument.value;
      var want: Ty;
      if (index == n - 1 && params[n - 1].Slice?) || index > n - 1 {
        want := params[n - 1].elem;
        if arg.ty.Slice? {
          if arg.ty.elem != want {
            ConvertFailsAt(params, args, index, conv);
            return Failure(SliceElemMismatch(index, want, arg.ty));
          }
          values[index] := AsIs(arg);
          continue;
        }
      } else {
        want := params[index];
      }
      if want == arg.ty {
        values[index] := AsIs(arg);
        continue;
      }
      if !conv(arg.ty, want) {
        ConvertFailsAt(params, args, index, conv);
        return Failure(NotConvertible(index, want, arg.ty));
      }
      values[index] := ConvertedTo(arg, want);
    }
    ConvertAllBound(params, args, conv);
    assert values[..] == Convert(params, args, conv).value;
    return Success(values[..]);
  }

  /** call: how the native return values become the reply. */
  function Interpret<V>(results: seq<Any<V>>): Reply<V> {
    if |results| == 0 then Reply(Nil, None)
    else if |results| == 2 then
      if !results[1].Nil? then
        // resultValues[1].Interface().(error): a non-error second value panics
        if results[1].ErrorValue? then Reply(results[0], Some(results[1].err)) else Panicked
      else Reply(results[0], None)
    else if |results| == 1 then
      if results[0].ErrorValue? then Reply(Nil, Some(results[0].err)) else Reply(results[0], None)
    else Reply(Nil, Some(TooManyResults))
  }

  /** The reply of `call` for each number of native results. */
  lemma InterpretCases<V>(results: seq<Any<V>>)
    ensures |results| == 0 ==> Interpret(results) == Reply(Nil, None)
    ensures |results| == 1 && results[0].ErrorValue? ==> Interpret(results) == Reply(Nil, Some(results[0].err))
    ensures |results| == 1 && !results[0].ErrorValue? ==> Interpret(results) == Reply(results[0], None)
    ensures |results| == 2 && results[1].ErrorValue? ==> Interpret(results) == Reply(results[0], Some(results[1].err))
    ensures |results| == 2 && results[1].Nil? ==> Interpret(results) == Reply(results[0], None)
    ensures |results| > 2 ==> Interpret(results) == Reply(Nil, Some(TooManyResults))
  {
  }

  /** A reply carries both a value and an error only for a two-result function. */
  lemma ValueWithErrorOnlyFromTwoResults<V>(results: seq<Any<V>>)
    requires Interpret(results).Reply? && Interpret(results).err.Some? && !Interpret(results).value.Nil?
    ensures |results| == 2
  {
  }

  /** A conversion error becomes the reply's error; a nil past the parameters is reflect's panic. */
  function ConversionFailure<V>(e: Error): Reply<V> {
    if e.NilPastParams? then Panicked else Reply(Nil, Some(e))
  }

  /** The count reflect's Value.Call accepts: exactly the parameter count, or for a
      variadic function at least all parameters but the last. Any other count panics. */
  predicate CallCountOk<V>(f: Func<V>, n: nat) {
    if f.variadic then n + 1 >= |f.params| else n == |f.params|
  }

  /** What CallFunc returns, as a function of the handle and the arguments. */
  function Invoke<V>(f: Func<V>, args: seq<Option<Arg<V>>>, conv: (Ty, Ty) -> bool): Reply<V> {
    match Convert(f.params, args, conv)
    case Failure(e) => ConversionFailure(e)
    case Success(bound) => if CallCountOk(f, |bound|) then Interpret(f.body(bound)) else Panicked
  }

  /** When conversion fails the function is never invoked: the reply does not depend on
      the function's behaviour and carries the conversion error. */
  lemma InvokeSkipsBodyOnFailure<V>(f: Func<V>, g: Func<V>, args: seq<Option<Arg<V>>>, conv: (Ty, Ty) -> bool)
    requires f.params == g.params && Convert(f.params, args, conv).Failure?
    ensures Invoke(f, args, conv) == Invoke(g, args, conv)
    ensures Invoke(f, args, conv) == ConversionFailure(Convert(f.params, args, conv).error)
  {
  }

  /** The arity check of convertArgs lets through counts that Value.Call rejects: whenever
      conversion succeeds, the call panics exactly when the count is not one Call accepts,
      which can only happen when the last parameter is a slice and the count is not exact. */
  lemma CallCountPanics<V>(f: Func<V>, args: seq<Option<Arg<V>>>, conv: (Ty, Ty) -> bool)
    requires Convert(f.params, args, conv).Success?
    ensures Invoke(f, args, conv) == Panicked <==>
      !CallCountOk(f, |args|) || Interpret(f.body(Convert(f.params, args, conv).value)) == Panicked
    ensures !CallCountOk(f, |args|) ==> LastIsSlice(f.params) && |args| != |f.params|
  {
    ConvertSucceedsIff(f.params, args, conv);
    ConvertAllBound(f.params, args, conv);
  }

  /** Two such inputs: func(a, b int, xs ...int) called with no arguments, and
      func(xs []int), not variadic, called with two ints. Both pass convertArgs and panic in Call. */
  lemma ArityCheckAdmitsCallPanics<V>(i: nat, a: V, body: seq<Bound<V>> -> seq<Any<V>>, conv: (Ty, Ty) -> bool)
    ensures Convert<V>([Base(i), Base(i), Slice(Base(i))], [], conv).Success?
    ensures Invoke(Func([Base(i), Base(i), Slice(Base(i))], true, body), [], conv) == Panicked
    ensures Convert([Slice(Base(i))], [Some(Arg(Base(i), a)), Some(Arg(Base(i), a))], conv).Success?
    ensures Invoke(Func([Slice(Base(i))], false, body), [Some(Arg(Base(i), a)), Some(Arg(Base(i), a))], conv) == Panicked
  {
    var two := [Some(Arg(Base(i), a)), Some(Arg(Base(i), a))];
    assert BindAt([Slice(Base(i))], 0, two[0], conv).Success?;
    assert BindAt([Slice(Base(i))], 1, two[1], conv).Success?;
    ConvertAllBound([Slice(Base(i))], two, conv);
    ConvertAllBound<V>([Base(i), Base(i), Slice(Base(i))], [], conv);
  }

  /** CallFunc */
  method CallFunc<V>(f: Func<V>, args: seq<Option<Arg<V>>>, conv: (Ty, Ty) -> bool) returns (r: Reply<V>)
    ensures r == Invoke(f, args, conv)
    ensures Convert(f.params, args, conv).Failure? ==> r == ConversionFailure(Convert(f.params, args, conv).error)
    ensures Convert(f.params, args, conv).Success? && CallCountOk(f, |args|) ==>
      r == Interpret(f.body(Convert(f.params, args, conv).value))
    ensures Convert(f.params, args, conv).Success? && !CallCountOk(f, |args|) ==> r == Panicked
  {
    var bound := ConvertArgs(f.params, args, conv);
    if bound.Failure? {
      return ConversionFailure(bound.error);
    }
    ConvertSucceedsIff(f.params, args, conv);
    ConvertAllBound(f.params, args, conv);
    if !CallCountOk(f, |bound.value|) {
      return Panicked;
    }
    return Interpret(f.body(bound.value));
  }
}
