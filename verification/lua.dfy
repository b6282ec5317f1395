/**
 * The part of the Lua C API the core touches: the values it reads from and
 * pushes onto the Lua stack, and how a C function's `return n` selects its
 * results.
 */
module Lua {

  /** A Lua value as the core sees it. A file handle is reduced to its descriptor. */
  datatype Value =
    | Nil
    | Boolean(b: bool)
    | Number(n: int)
    | Str(s: string)
    | File(fd: nat)

  /** lua_isnumber. Numeric strings are not modelled, so only numbers qualify. */
  predicate IsNumber(v: Value) {
    v.Number?
  }

  /** lua_toboolean: nil and false are false, every other value is true. */
  predicate Truthy(v: Value) {
    !(v.Nil? || v == Boolean(false))
  }

  /**
   * The Lua argument at 1-based `index` of a call with arguments `args`.
   * An absent argument reads as nil, which lua_isnumber and lua_toboolean
   * treat exactly as they treat a missing stack slot.
   */
  function Arg(args: seq<Value>, index: int): Value {
    if 1 <= index <= |args| then args[index - 1] else Nil
  }

  /** `return n` from a C function: the top `n` stack slots, bottom first. */
  function Top(stack: seq<Value>, n: nat): seq<Value>
    requires n <= |stack|
  {
    stack[|stack| - n..]
  }
}
