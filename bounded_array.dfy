/** The userdata-backed bounded numeric array: a `size` header followed by a buffer of
    `size` doubles, read and written from scripts with 1-based, bounds-checked indices
    through its `__index`, `__newindex` and `__len` metamethods, and built by
    `array.new(n)` or by calling the `array` namespace table, `array(v1, ..., vN)`.

    The metamethods are C functions that receive the array as argument 1. What they get
    from `lua_touserdata` is a nullable reference: null when argument 1 is not a userdata.
 */
module BoundedArray {
  import opened LuaArgs

  const ExpectedArray := "expected an array"
  const OutOfRange := "index out of range"

  /** The userdata block. */
  class NumArray {
    var size: nat
    var data: array<real>

    /** The header agrees with the buffer that follows it. */
    ghost predicate Valid()
      reads this
    {
      data.Length == size
    }

    function Contents(): (s: seq<real>)
      reads this, data
    {
      data[..]
    }

    /** createArray: one block with room for `n` doubles, its header set to `n`.
        The buffer is not initialised, so nothing is promised about its contents. */
    constructor (n: nat)
      ensures Valid() && size == n && fresh(data)
    {
      size := n;
      data := new real[n];
    }
  }

  /** What an accessor can see of its first argument: the buffer's contents, or nothing
      when `lua_touserdata` gave null. */
  function View(arr: NumArray?): (h: Option<seq<real>>)
    reads arr, if arr != null then {arr.data} else {}
    ensures h.Some? <==> arr != null
  {
    if arr == null then None else Some(arr.Contents())
  }

  /** The bounds test of both accessors: 1-based, inclusive at both ends. It accepts an
      index exactly when the zero-based slot `i - 1` lies inside a buffer of `size`. */
  function InRange(i: int, size: nat): (b: bool)
    ensures b <==> 0 <= i - 1 < size
  {
    0 < i && i <= size
  }

  /** The bounds test as the code applies it: the 64-bit Lua index is first stored in a
      C `int`, and only the narrowed value is compared with the size. */
  function AcceptedAsWritten(n: LuaInteger, size: nat): (b: bool)
    ensures b ==> 0 <= ToCInt(n) - 1 < size
  {
    InRange(ToCInt(n), size)
  }

  /** An index that is 2^32 too large passes the narrowed test on an array of one
      element, where it addresses slot 0, although it is outside [1, size]. */
  lemma NarrowedIndexAccepted()
    ensures AcceptedAsWritten(0x1_0000_0001, 1) && ToCInt(0x1_0000_0001) - 1 == 0
    ensures !InRange(0x1_0000_0001, 1)
  {
  }

  /** For every index that already fits a C `int`, the narrowed test and the
      intended one agree, so the two only differ on indices of 2^31 or more in size. */
  lemma NarrowingAgreesOnCInts(n: LuaInteger, size: nat)
    requires MinInt32 <= n <= MaxInt32
    ensures AcceptedAsWritten(n, size) == InRange(n, size)
  {
  }

  /** array_get on the value level: the index is checked for an integer first, then the
      handle, then the bounds; in range, the element at zero-based position `i - 1`. */
  function Get(h: Option<seq<real>>, idx: Value): (r: Result<real>)
    ensures r.Ok? <==> CheckInteger(idx, 2).Ok? && h.Some? && 1 <= CheckInteger(idx, 2).value <= |h.value|
    ensures r.Ok? ==> r.value == h.value[CheckInteger(idx, 2).value - 1]
    ensures CheckInteger(idx, 2).Err? ==> r == Err(CheckInteger(idx, 2).error)
    ensures CheckInteger(idx, 2).Ok? && h.None? ==> r == Err(ArgCheck(2, ExpectedArray))
    ensures CheckInteger(idx, 2).Ok? && h.Some? && r.Err? ==> r == Err(ArgCheck(2, OutOfRange))
  {
    match CheckInteger(idx, 2)
    case Err(e) => Err(e)
    case Ok(i) =>
      if h.None? then Err(ArgCheck(2, ExpectedArray))
      else if !InRange(i, |h.value|) then Err(ArgCheck(2, OutOfRange))
      else Ok(h.value[i - 1])
  }

  /** array_set on the value level: index, value, handle and bounds are all checked
      before anything is written; on success exactly slot `i - 1` holds the new number. */
  function Set(h: Option<seq<real>>, idx: Value, v: Value): (r: Result<seq<real>>)
    ensures r.Ok? <==>
      CheckInteger(idx, 2).Ok? && IsNumber(v) && h.Some? && 1 <= CheckInteger(idx, 2).value <= |h.value|
    ensures r.Ok? ==>
      |r.value| == |h.value| &&
      r.value[CheckInteger(idx, 2).value - 1] == NumberValue(v) &&
      forall j :: 0 <= j < |h.value| && j != CheckInteger(idx, 2).value - 1 ==> r.value[j] == h.value[j]
    ensures CheckInteger(idx, 2).Err? ==> r == Err(CheckInteger(idx, 2).error)
    ensures CheckInteger(idx, 2).Ok? && !IsNumber(v) ==> r == Err(TypeError(3, "number"))
    ensures CheckInteger(idx, 2).Ok? && IsNumber(v) && h.None? ==> r == Err(ArgCheck(2, ExpectedArray))
    ensures CheckInteger(idx, 2).Ok? && IsNumber(v) && h.Some? && r.Err? ==> r == Err(ArgCheck(2, OutOfRange))
  {
    match CheckInteger(idx, 2)
    case Err(e) => Err(e)
    case Ok(i) =>
      match CheckNumber(v, 3)
      case Err(e) => Err(e)
      case Ok(x) =>
        if h.None? then Err(ArgCheck(2, ExpectedArray))
        else if !InRange(i, |h.value|) then Err(ArgCheck(2, OutOfRange))
        else Ok(h.value[i - 1 := x])
  }

  /** Write/read round trip: after a successful set, reading the same index gives the new
      number, and reading any other index gives what it gave before. */
  lemma SetThenGet(s: seq<real>, idx: Value, v: Value, other: Value)
    requires Set(Some(s), idx, v).Ok?
    ensures Get(Some(Set(Some(s), idx, v).value), idx) == Ok(NumberValue(v))
    ensures CheckInteger(other, 2) != CheckInteger(idx, 2) ==>
      Get(Some(Set(Some(s), idx, v).value), other) == Get(Some(s), other)
  {
  }

  /** A script's run of assignments `arr[i] = v` on one array, each one an array_set;
      the first that fails raises, and the rest of the script does not run. */
  function RunSets(s: seq<real>, writes: seq<(Value, Value)>): (r: Result<seq<real>>)
    decreases writes
  {
    if writes == [] then Ok(s)
    else
      match Set(Some(s), writes[0].0, writes[0].1)
      case Err(e) => Err(e)
      case Ok(t) => RunSets(t, writes[1..])
  }

  /** However many sets a script performs, the array keeps its length, so the length
      query answers the same before and after. */
  lemma {:induction false} RunSetsKeepsSize(s: seq<real>, writes: seq<(Value, Value)>)
    ensures RunSets(s, writes).Ok? ==> |RunSets(s, writes).value| == |s|
    decreases writes
  {
    if writes != [] {
      match Set(Some(s), writes[0].0, writes[0].1)
      case Err(_) =>
      case Ok(t) => RunSetsKeepsSize(t, writes[1..]);
    }
  }

  /** A script whose sets all succeed used only integer indices inside [1, size]: no
      write of the run touches memory outside the buffer. */
  lemma {:induction false} RunSetsOnlyInRange(s: seq<real>, writes: seq<(Value, Value)>)
    requires RunSets(s, writes).Ok?
    ensures forall k :: 0 <= k < |writes| ==>
      CheckInteger(writes[k].0, 2).Ok? && 1 <= CheckInteger(writes[k].0, 2).value <= |s|
    decreases writes
  {
    if writes != [] {
      var t := Set(Some(s), writes[0].0, writes[0].1).value;
      RunSetsOnlyInRange(t, writes[1..]);
      forall k | 1 <= k < |writes|
        ensures CheckInteger(writes[k].0, 2).Ok? && 1 <= CheckInteger(writes[k].0, 2).value <= |s|
      {
        assert writes[1..][k - 1] == writes[k];
      }
    }
  }

  /** array_get, the `__index` metamethod: reads, and changes nothing. */
  method ArrayGet(arr: NumArray?, idx: Value) returns (r: Result<real>)
    requires arr != null ==> arr.Valid()
    ensures r == Get(View(arr), idx)
  {
    var i := CheckInteger(idx, 2);
    if i.Err? {
      return Err(i.error);
    }
    if arr == null {
      return Err(ArgCheck(2, ExpectedArray));
    }
    if !InRange(i.value, arr.size) {
      return Err(ArgCheck(2, OutOfRange));
    }
    r := Ok(arr.data[i.value - 1]);
  }

  /** array_set, the `__newindex` metamethod: writes one slot of the buffer in place,
      or fails having written nothing. */
  method ArraySet(arr: NumArray?, idx: Value, v: Value) returns (r: Result<()>)
    requires arr != null ==> arr.Valid()
    modifies if arr != null then {arr.data} else {}
    ensures arr != null ==> arr.Valid() && arr.size == old(arr.size) && arr.data == old(arr.data)
    ensures match Set(old(View(arr)), idx, v)
            case Ok(s) => r == Ok(()) && View(arr) == Some(s)
            case Err(e) => r == Err(e) && View(arr) == old(View(arr))
  {
    var i := CheckInteger(idx, 2);
    if i.Err? {
      return Err(i.error);
    }
    var x := CheckNumber(v, 3);
    if x.Err? {
      return Err(x.error);
    }
    if arr == null {
      return Err(ArgCheck(2, ExpectedArray));
    }
    if !InRange(i.value, arr.size) {
      return Err(ArgCheck(2, OutOfRange));
    }
    arr.data[i.value - 1] := x.value;
    r := Ok(());
  }

  /** array_size, the `__len` metamethod (also `array.size`): argument 1 must be a
      userdata; the answer is the header, which is the number of elements. */
  method ArraySize(arr: NumArray?) returns (r: Result<int>)
    requires arr != null ==> arr.Valid()
    ensures arr == null ==> r == Err(TypeError(1, "userdata"))
    ensures arr != null ==> r.Ok? && r.value == arr.size == |arr.Contents()|
  {
    if arr == null {
      return Err(TypeError(1, "userdata"));
    }
    r := Ok(arr.size);
  }

  /** array_new: `array.new(n)`. The size argument must be an integer; it is stored in a
      C `int` before the array is created with that many elements. */
  method ArrayNew(sizeArg: Value) returns (r: Result<NumArray>)
    requires CheckInteger(sizeArg, 1).Ok? ==> ToCInt(CheckInteger(sizeArg, 1).value) >= 0
    ensures r.Ok? <==> CheckInteger(sizeArg, 1).Ok?
    ensures r.Err? ==> r.error == CheckInteger(sizeArg, 1).error
    ensures r.Ok? ==>
      fresh(r.value) && fresh(r.value.data) && r.value.Valid() &&
      r.value.size == ToCInt(CheckInteger(sizeArg, 1).value)
  {
    var n := CheckInteger(sizeArg, 1);
    if n.Err? {
      return Err(n.error);
    }
    var arr := new NumArray(ToCInt(n.value));
    r := Ok(arr);
  }

  /** array_make: `array(v1, ..., vN)`, reached through `__call` on the namespace table,
      which arrives as argument 1; `args` are the arguments after it, at positions 2 and
      on. The array is sized to their count and filled left to right; the first
      argument that is not a number raises. */
  method ArrayMake(args: seq<Value>) returns (r: Result<NumArray>)
    ensures r.Ok? <==> CheckNumbers(args, 2).Ok?
    ensures r.Err? ==> r.error == CheckNumbers(args, 2).error
    ensures r.Ok? ==>
      fresh(r.value) && fresh(r.value.data) && r.value.Valid() &&
      r.value.size == |args| && r.value.Contents() == CheckNumbers(args, 2).value
  {
    var arr := new NumArray(|args|);
    var i := 0;
    while i < |args|
      invariant 0 <= i <= |args|
      invariant arr.Valid() && arr.size == |args| && fresh(arr.data)
      invariant forall j :: 0 <= j < i ==> IsNumber(args[j]) && arr.data[j] == NumberValue(args[j])
    {
      var x := CheckNumber(args[i], i + 2);
      if x.Err? {
        CheckNumbersRejects(args, 2, i);
        return Err(x.error);
      }
      arr.data[i] := x.value;
      i := i + 1;
    }
    CheckNumbersAccepts(args, 2);
    assert arr.Contents() == CheckNumbers(args, 2).value;
    r := Ok(arr);
  }
}
