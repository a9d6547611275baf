/** Types shared by the engine components of this model: optional values,
    the engine's error codes, resource-load outcomes and 32-bit unsigned
    arithmetic. */
module Common {

  datatype Option<+T> = None | Some(value: T)

  /** The non-success values of the engine's `ErrorCode`. */
  datatype Failure = UserData | OutOfMemory | FunctionFailed | FileAccess

  /** The engine's `Error`: `ErrorCode::NONE` or one failure code. */
  datatype Error = NoError | Failed(code: Failure)

  /** What loading a resource (a mesh, a material, a texture) yields. The
      resource manager itself is not part of this model: its answer is an
      input of the operations that load. */
  datatype Loaded<+T> = Loaded(value: T) | LoadFailed(code: Failure)

  /** The engine's `U8`. */
  newtype u8 = x: int | 0 <= x < 0x100

  /** The engine's `U32`. */
  newtype u32 = x: int | 0 <= x < 0x1_0000_0000

  const MaxU32: u32 := 0xFFFF_FFFF

  /** `a - b` on `U32`, which wraps around modulo 2^32. */
  function SubU32(a: u32, b: u32): (r: u32)
    ensures (r as int + b as int) % 0x1_0000_0000 == a as int
  {
    ((a as int - b as int) % 0x1_0000_0000) as u32
  }

  /** `a + b` on `U32`, which wraps around modulo 2^32. */
  function AddU32(a: u32, b: u32): (r: u32)
    ensures SubU32(r, b) == a
  {
    ((a as int + b as int) % 0x1_0000_0000) as u32
  }
}
