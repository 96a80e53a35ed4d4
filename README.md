# Bounded numeric array and counter closures, modelled in Dafny

This is a model of two pieces of C and C++ code that a host program exposes to Lua 5.3 scripts.

The first is the **bounded numeric array**, a userdata block. It holds an `unsigned int size` header followed by `size` doubles. Scripts use its metamethods:

- `arr[i]` calls `array_get` (`__index`);
- `arr[i] = v` calls `array_set` (`__newindex`);
- `#arr` calls `array_size` (`__len`).

Indices are 1-based and bounds-checked. An array is built in one of two ways:

- `array.new(n)` calls `array_new`, which calls `createArray`.
- `array(v1, ..., vN)` calls `array_make`, which `__call` on the `array` namespace table reaches.

The same code appears twice: in `array.cpp` and in `lua_doc.c` (lines 443-528). The only difference is C versus C++ pointer casts. This single model covers both copies, and the table below cites whichever copy a member's property is stated from.

The second piece is the **counter closure** from `lua_doc.c`. `counter` keeps a count in its one upvalue: each call increments it, stores it back and returns it. `newCounter` makes a new closure whose count starts at 0.

Modules:

- `LuaArgs` (`lua_args.dfy`): the argument checks the C functions use, stated on values. It models:
  - `luaL_checkinteger` and `luaL_checknumber`, with the errors they raise;
  - the left-to-right check of a run of arguments;
  - the narrowing of a 64-bit `lua_Integer` into a C `int`.
- `BoundedArray` (`bounded_array.dfy`): the array.
  - The class `NumArray` has a `size` field and an `array<real>` buffer. Each accessor is a method:
    - `ArrayGet` only reads;
    - `ArraySet` writes one slot in place;
    - `ArraySize` reads the header.
  - `ArrayNew` and `ArrayMake` build arrays; `ArrayMake` fills the buffer in a loop.
  - `ArrayGet`, `ArraySet` and `ArrayMake` are proved against value-level specifications (`Get`, `Set`, `CheckNumbers`); `ArrayNew` against `CheckInteger` and `ToCInt`. Lemmas about those specifications cover:
    - the write/read round trip;
    - no effect on other slots;
    - length preserved across any run of sets;
    - no out-of-range write in a run of sets that succeeds.
- `Closures` (`closures.dfy`): the class `Counter` with its mutable `count`, plus `NewCounter`. `UpvaluesClosures` models the walkthrough script. It shows that separately made counters count independently.

The accessors receive the array as Lua argument 1. The model passes it as a nullable `NumArray?`, which is what `lua_touserdata` yields: null when argument 1 is not a userdata.

Errors are values of `LuaArgs.Error`, all of them raised through `luaL_argerror` in the code:

- `TypeError(arg, "number")` / `TypeError(arg, "userdata")`: the argument at position `arg` has the wrong type;
- `NoIntegerRep(arg)`: a number without an integer value where an integer is required;
- `ArgCheck(arg, msg)`: a failed `luaL_argcheck` with its message, "expected an array" or "index out of range".

The code reports "expected an array" at argument position 2, not 1, and the model keeps that. The checks run in the code's own order:

- `array_get`: index type, then handle, then bounds.
- `array_set`: index type, then value type, then handle, then bounds. The write comes only after all of them.

Two facts about the code that the model keeps:

- `createArray` never writes the buffer, so the model promises nothing about its initial contents.
- Every failure in the code is an argument error with a position and a message, and the model keeps that form.

The model follows the code everywhere except in one place: the bounds test of `array_get` and `array_set`. The code narrows the 64-bit index to a C `int` before testing it. The model's `Get`, `Set`, `ArrayGet` and `ArraySet` test the full index instead, which is the corrected behaviour described under "## Findings". The test as written is modelled by `AcceptedAsWritten`.

## Model

| member | source | states |
|---|---|---|
| `LuaArgs.CheckNumber` | array.cpp:45 | Any number is accepted, and its value is returned (an integer as a float). Any other value is a type error at the given argument position. |
| `LuaArgs.CheckInteger` | array.cpp:33 | Returns an integer as is. Accepts a float exactly when it has an integer value inside the 64-bit range, and returns that value. Rejects other numbers as having no integer representation, and non-numbers as a type error. |
| `LuaArgs.ToCInt` | array.cpp:44 | Storing a 64-bit Lua integer in a C `int` gives a value in the 32-bit range that is congruent to the input modulo 2^32. The value is unchanged when it already fits. |
| `LuaArgs.CheckNumbers` | array.cpp:84-87 | The left-to-right check of `array_make`'s arguments. On success it yields exactly one number per argument; its lemmas below pin down which numbers and which error. |
| `LuaArgs.CheckNumbersAccepts` | array.cpp:84-87 | When every argument of a run is a number, the check succeeds. It yields one number per argument, in call order, each equal to its argument's value. |
| `LuaArgs.CheckNumbersRejects` | lua_doc.c:504-507 | The first non-number argument of a run decides the error, a type error naming that argument's own position. |
| `LuaArgs.CheckNumbersOnlyNumbers` | lua_doc.c:500-509 | A run of arguments is accepted if and only if every argument in it is a number. |
| `BoundedArray.NumArray.constructor` | array.cpp:61-71 | `createArray(n)` gives an array whose header is `n` and whose fresh buffer holds exactly `n` elements. Initial contents are unspecified. |
| `BoundedArray.InRange` | array.cpp:35 | The 1-based test `0 < i <= size` accepts an index exactly when the zero-based slot `i - 1` lies inside the buffer. |
| `BoundedArray.AcceptedAsWritten` | array.cpp:33-35 | The bounds test as written, on the index after narrowing to a C `int`. When it accepts, the slot the narrowed index addresses lies inside the buffer (the narrowing itself is stated by `LuaArgs.ToCInt`). |
| `BoundedArray.NarrowedIndexAccepted` | array.cpp:33-35 | As written, index 2^32+1 on an array of size 1 passes the bounds test and addresses slot 0, although it is outside [1, size]. |
| `BoundedArray.NarrowingAgreesOnCInts` | lua_doc.c:455-457 | For indices that fit a C `int`, the narrowed bounds test and the intended one accept exactly the same indices. |
| `BoundedArray.Get` | array.cpp:30-38 | A read succeeds if and only if three things hold: the index is an integer, the handle is non-null, and 1 <= i <= size. It then returns the element at zero-based position i-1. A non-integer index fails with the index's type error. A null handle fails with "expected an array". An out-of-range integer fails with "index out of range". |
| `BoundedArray.Set` | array.cpp:41-50 | A write succeeds if and only if the index is an integer, the value a number, the handle non-null and 1 <= i <= size. It then keeps the length, puts the number in slot i-1 and leaves every other slot as it was. Each failing check gives its own error, in the code's order. |
| `BoundedArray.SetThenGet` | array.cpp:47-48 | After a successful set, reading the same index returns the written number. Reading any other index returns what it returned before. |
| `BoundedArray.RunSetsKeepsSize` | lua_doc.c:473-479 | After any run of sets that succeeds, the array has its original length, so the length query is unchanged. |
| `BoundedArray.RunSetsOnlyInRange` | lua_doc.c:467-469 | In a run of sets that succeeds, every index was an integer in [1, size]. No write lands outside the buffer. |
| `BoundedArray.ArrayGet` | lua_doc.c:452-460 | The `__index` method returns exactly what `Get` gives on the array's contents, and changes nothing. |
| `BoundedArray.ArraySet` | lua_doc.c:462-471 | The `__newindex` method changes the buffer into what `Set` gives, and leaves `size` and the buffer reference alone. On any error the contents are untouched and the error is returned. |
| `BoundedArray.ArraySize` | array.cpp:53-59 | The `__len` method returns the header `size`, which equals the number of elements. When argument 1 is not a userdata it fails with a userdata type error. |
| `BoundedArray.ArrayNew` | array.cpp:73-78 | `array.new(n)` succeeds exactly when `n` passes the integer check, and otherwise returns that check's error. On success it returns a fresh, valid array whose size is `n` as stored in a C `int`. |
| `BoundedArray.ArrayMake` | array.cpp:80-89 | `array(v1..vN)` succeeds exactly when all N arguments are numbers. It then returns a fresh array of size N holding v1..vN in call order. Otherwise it fails with the type error of the first non-number, at its own position (namespace table = 1). |
| `Closures.Counter.constructor` | lua_doc.c:426-427 | A closure made over the integer 0 starts with a count of 0. |
| `Closures.Counter.Call` | lua_doc.c:407-414 | Each call returns the previous count plus one and stores that value as the new count. |
| `Closures.NewCounter` | lua_doc.c:416-420 | `newCounter` returns a fresh closure whose count is 0, so its first call returns 1. |
| `Closures.UpvaluesClosures` | lua_doc.c:424-441 | The script's three counters show 1,2,3 / 1,2,3,4 / 1,2,3. Separately made closures keep independent counts. |

## Left out

- Lua runtime internals are not modelled: `lua_newuserdata`, the metatables (`lua_newtable`, `lua_setmetatable`, the `setfunction` macro), the stack and the registry. The metamethod dispatch is represented by calling the accessor methods directly, and `__call` on the namespace by passing `ArrayMake` the arguments after the namespace table.
- Strings that Lua would convert to numbers count as non-numbers (`NonNumber`), because the runtime's string-to-number coercion is not modelled.
- Floating point is modelled as exact reals. NaN, infinities and the rounding of large integers to doubles are not represented, and no arithmetic is done on the elements.
- A userdata of another type passed where an array is expected is not modelled. The code would take it for an array, but a handle in the model is always a `NumArray` or null.
- `BoundedArray.Get`: uses the corrected bounds test on the full 64-bit index, not the code's test on the index narrowed to a C `int`. It differs from the code for indices outside the C `int` range, which the code may accept and the model rejects. See "## Findings".
- `BoundedArray.Set`: uses the corrected bounds test, as `BoundedArray.Get` does, and so differs from the code for indices outside the C `int` range.
- `BoundedArray.ArrayGet`: uses the corrected bounds test on the full 64-bit index. For indices outside the C `int` range it returns "index out of range" where the code reads the slot the narrowed index addresses. For example, `arr[4294967297]` on an array of size 1 reads slot 0 in the code.
- `BoundedArray.ArraySet`: uses the corrected bounds test on the full 64-bit index. For indices outside the C `int` range it returns "index out of range" where the code writes the slot the narrowed index addresses.
- `BoundedArray.ArrayNew`: requires the size, once narrowed to a C `int`, to be non-negative. As written, a negative size becomes an enormous `size_t`, and the block's byte count then wraps around. That case is not modelled. Sizes of 2^31 or more are modelled as narrowed, as written.
- `Closures.Counter.Call`: requires the count to lie below 2^31-1, because incrementing a C `int` past that is undefined behaviour.
- The garbage-collected lifetime of arrays and closures is not modelled; the code has no deallocation.
- An `array_make` that fails part-way leaves a partly filled, unreachable userdata behind. The model returns only the error.
- `main`, `usingUserdata`, the stack, table, registry, environment and code-loading walkthroughs of `lua_doc.c` are not modelled. They narrate the Lua library itself and do I/O (`luaL_dofile`, `puts`, `print`).
- `buidingVectorTable`, `vector_new` and `vector_distance` are not modelled. They are table plumbing plus floating-point `sqrt`.
- The Win32 window stub `vxWindow` / `lua_vxWindow_open` is not modelled. It has no implementation.

## Findings

| source | as written | input that shows it | evidently intended | confidence | as-written member | corrected member |
|---|---|---|---|---|---|---|
| array.cpp:33-35 (same in lua_doc.c:455-457 and at array.cpp:44-47, lua_doc.c:465-468) | The 64-bit index from `luaL_checkinteger` is stored in a 32-bit C `int`, and only the narrowed value is bounds-checked | `arr[4294967297]` on an array of size 1: the index narrows to 1, so the read returns slot 0 and the write overwrites it | An index outside [1, size], as the script wrote it, raises "index out of range" | medium (depends on the compiler's narrowing, which is modulo 2^32 on the usual compilers); not executed | `BoundedArray.AcceptedAsWritten`, `BoundedArray.NarrowedIndexAccepted` | `BoundedArray.Get`, `BoundedArray.Set` |

The corrected bounds test compares the full Lua integer with the size. Both `Get` and `Set`, and so `ArrayGet` and `ArraySet`, use it. `BoundedArray.AcceptedAsWritten` is the test as written. `BoundedArray.NarrowingAgreesOnCInts` shows that the two tests differ only for indices that do not fit a C `int`.
