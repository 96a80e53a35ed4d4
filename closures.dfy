/** C closures with one upvalue: `counter` keeps its running count in its upvalue,
    and `newCounter` makes a fresh closure over a count of 0.
 */
module Closures {
  import opened LuaArgs

  /** A closure over `counter`; `count` is its upvalue, an integer that the C function
      reads into a C `int`. */
  class Counter {
    var count: int

    /** Pushing the integer 0 and closing `counter` over it with lua_pushcclosure. */
    constructor ()
      ensures count == 0
    {
      count := 0;
    }

    /** One call of the closure: the count read from the upvalue, plus one, is both
        returned and stored back into the upvalue. */
    method Call() returns (r: int)
      requires MinInt32 <= count < MaxInt32
      modifies this
      ensures r == old(count) + 1
      ensures count == r
    {
      count := count + 1;
      r := count;
    }
  }

  /** newCounter, registered as the global `newcounter`: a new closure whose count is 0. */
  method NewCounter() returns (c: Counter)
    ensures fresh(c) && c.count == 0
  {
    c := new Counter();
  }

  /** upvaluesClosures: the global `count` closure and two counters from `newcounter`,
      each called in turn; the results are what the script's three print lines show.
      Each counter counts from 1 on its own, whatever the others were called. */
  method UpvaluesClosures() returns (cShown: seq<int>, counterShown: seq<int>, countShown: seq<int>)
    ensures cShown == [1, 2, 3]
    ensures counterShown == [1, 2, 3, 4]
    ensures countShown == [1, 2, 3]
  {
    var count := new Counter();
    var counter := NewCounter();
    var c := NewCounter();
    var c1 := c.Call();
    var c2 := c.Call();
    var c3 := c.Call();
    cShown := [c1, c2, c3];
    var k1 := counter.Call();
    var k2 := counter.Call();
    var k3 := counter.Call();
    var k4 := counter.Call();
    counterShown := [k1, k2, k3, k4];
    var n1 := count.Call();
    var n2 := count.Call();
    var n3 := count.Call();
    countShown := [n1, n2, n3];
  }
}
