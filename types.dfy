/** Basic value types shared by the callback-thread model. */
module HalTypes {

  /** An optional value; `None` stands for a null pointer. */
  datatype Option<+T> = None | Some(value: T)

  /** The event mask posted by the trigger source (`uint64_t`). */
  newtype uint64 = x: int | 0 <= x < 0x1_0000_0000_0000_0000

  /** The status returned by an `init` hook (`int32_t`). */
  newtype int32 = x: int | -0x8000_0000 <= x < 0x8000_0000

  /** An opaque `void*` user parameter; address 0 is `nullptr`. */
  type Addr = nat

  const Null: Addr := 0

  /** Identifies a user-supplied function; an absent hook is `None`. */
  type HookId = nat

  /** One invocation of a user hook, with the arguments it received. */
  datatype HookCall =
    | Init(hook: HookId, param: Addr)
    | Process(hook: HookId, mask: uint64, param: Addr)
    | End(hook: HookId, param: Addr)
}
