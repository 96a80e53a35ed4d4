/** The argument conventions of the Lua 5.3 auxiliary library that the array
    accessors, the constructors and the counter rely on, stated on values:
    what `luaL_checkinteger` and `luaL_checknumber` accept and return, the
    errors they raise, and the narrowing of a 64-bit `lua_Integer` to a C `int`.
 */
module LuaArgs {

  const MinInt32: int := -0x8000_0000
  const MaxInt32: int := 0x7FFF_FFFF
  const MinInt64: int := -0x8000_0000_0000_0000
  const MaxInt64: int := 0x7FFF_FFFF_FFFF_FFFF

  /** Lua 5.3's integer subtype, `lua_Integer` (64 bits). */
  type LuaInteger = i: int | MinInt64 <= i <= MaxInt64

  /** A Lua value in an argument position, as far as the checks below tell values apart.
      Floats are modelled as exact reals (no NaN, no infinities, no rounding). */
  datatype Value =
    | Integer(i: LuaInteger)
    | Float(x: real)
    | NonNumber   // nil, booleans, strings, tables, functions, userdata, or no value at all

  /** The errors raised through `luaL_argerror`; `arg` is the 1-based argument position. */
  datatype Error =
    | TypeError(arg: nat, expected: string)   // "bad argument #arg (<expected> expected, got ...)"
    | NoIntegerRep(arg: nat)                  // "bad argument #arg (number has no integer representation)"
    | ArgCheck(arg: nat, message: string)     // a failed luaL_argcheck with its message

  datatype Result<T> = Ok(value: T) | Err(error: Error)

  datatype Option<T> = None | Some(value: T)

  predicate IsNumber(v: Value) {
    v.Integer? || v.Float?
  }

  /** The number a numeric value denotes. */
  function NumberValue(v: Value): (r: real)
    requires IsNumber(v)
  {
    if v.Integer? then v.i as real else v.x
  }

  predicate IsIntegral(x: real) {
    x.Floor as real == x
  }

  /** luaL_checknumber: any number is accepted (an integer is converted to a float);
      anything else is a type error at the given position. */
  function CheckNumber(v: Value, arg: nat): (r: Result<real>)
    ensures r.Ok? <==> IsNumber(v)
    ensures r.Ok? ==> r.value == NumberValue(v)
    ensures r.Err? ==> r.error == TypeError(arg, "number")
  {
    match v
    case Integer(i) => Ok(i as real)
    case Float(x) => Ok(x)
    case NonNumber => Err(TypeError(arg, "number"))
  }

  /** luaL_checkinteger: an integer, or a float with an exact integer value inside the
      64-bit range. Another number is rejected for having no integer representation,
      a non-number for not being a number. */
  function CheckInteger(v: Value, arg: nat): (r: Result<LuaInteger>)
    ensures r.Ok? ==> IsNumber(v) && r.value as real == NumberValue(v)
    ensures r.Ok? <==> v.Integer? || (v.Float? && IsIntegral(v.x) && MinInt64 <= v.x.Floor <= MaxInt64)
    ensures r.Err? && IsNumber(v) ==> r.error == NoIntegerRep(arg)
    ensures !IsNumber(v) ==> r == Err(TypeError(arg, "number"))
  {
    match v
    case Integer(i) => Ok(i)
    case Float(x) =>
      if x.Floor as real == x && MinInt64 <= x.Floor <= MaxInt64 then Ok(x.Floor)
      else Err(NoIntegerRep(arg))
    case NonNumber => Err(TypeError(arg, "number"))
  }

  /** The assignment of a `lua_Integer` to a C `int`: the value is reduced modulo 2^32
      into the signed 32-bit range (what the usual compilers do). */
  function ToCInt(n: int): (r: int)
    ensures MinInt32 <= r <= MaxInt32
    ensures (n - r) % 0x1_0000_0000 == 0
    ensures MinInt32 <= n <= MaxInt32 ==> r == n
  {
    var m := n % 0x1_0000_0000;
    if m > MaxInt32 then m - 0x1_0000_0000 else m
  }

  /** luaL_checknumber applied to a run of consecutive argument positions, the first of
      them at position `first`, left to right: the numbers, or the error of the first
      position that does not hold one. */
  function CheckNumbers(args: seq<Value>, first: nat): (r: Result<seq<real>>)
    ensures r.Ok? ==> |r.value| == |args|
  {
    if args == [] then Ok([])
    else
      match CheckNumber(args[0], first)
      case Err(e) => Err(e)
      case Ok(x) =>
        match CheckNumbers(args[1..], first + 1)
        case Err(e) => Err(e)
        case Ok(xs) => Ok([x] + xs)
  }

  /** When every argument is a number, the run is accepted and yields each one in order. */
  lemma {:induction false} CheckNumbersAccepts(args: seq<Value>, first: nat)
    requires forall j :: 0 <= j < |args| ==> IsNumber(args[j])
    ensures CheckNumbers(args, first).Ok?
    ensures |CheckNumbers(args, first).value| == |args|
    ensures forall j :: 0 <= j < |args| ==> CheckNumbers(args, first).value[j] == NumberValue(args[j])
  {
    if args != [] {
      CheckNumbersAccepts(args[1..], first + 1);
      var xs := CheckNumbers(args[1..], first + 1).value;
      assert CheckNumbers(args, first).value == [NumberValue(args[0])] + xs;
      forall j | 1 <= j < |args|
        ensures CheckNumbers(args, first).value[j] == NumberValue(args[j])
      {
        assert args[1..][j - 1] == args[j];
      }
    }
  }

  /** The first argument that is not a number decides the error, and names its own position. */
  lemma {:induction false} CheckNumbersRejects(args: seq<Value>, first: nat, k: nat)
    requires k < |args| && !IsNumber(args[k])
    requires forall j :: 0 <= j < k ==> IsNumber(args[j])
    ensures CheckNumbers(args, first) == Err(TypeError(first + k, "number"))
  {
    if k > 0 {
      forall j | 0 <= j < k - 1 ensures IsNumber(args[1..][j]) {
        assert args[1..][j] == args[j + 1];
      }
      CheckNumbersRejects(args[1..], first + 1, k - 1);
    }
  }

  /** A run is accepted only if every argument in it is a number. */
  lemma {:induction false} CheckNumbersOnlyNumbers(args: seq<Value>, first: nat)
    ensures CheckNumbers(args, first).Ok? <==> forall j :: 0 <= j < |args| ==> IsNumber(args[j])
  {
    if args != [] {
      CheckNumbersOnlyNumbers(args[1..], first + 1);
      if CheckNumbers(args, first).Ok? {
        forall j | 1 <= j < |args| ensures IsNumber(args[j]) {
          assert args[1..][j - 1] == args[j];
        }
      }
      if forall j :: 0 <= j < |args| ==> IsNumber(args[j]) {
        CheckNumbersAccepts(args, first);
      }
    }
  }
}
