/** Values as the Lua side of the binding sees them. */
module Lua {

  /** One byte of a Lua string, of a key or of a stored value. */
  newtype byte = x: int | 0 <= x < 256

  type Bytes = seq<byte>

  datatype Option<T> = None | Some(value: T)

  /** A Lua number (`lua_Number`, a C double), kept as its IEEE-754 bit pattern. */
  datatype Double = Double(bits: bv64)

  /** The argument kinds `lua_type` distinguishes. */
  datatype LuaValue =
    | Nil
    | Str(bytes: Bytes)
    | Num(number: Double)
    | Bool(truth: bool)
    | Table
    | Function
    | Userdata
    | LightUserdata
    | Thread
}
