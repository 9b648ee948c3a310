// Types shared by the models of the egress control plane.
module Basics {
  datatype Option<+T> = None | Some(value: T)

  const MAX_INT64: int := 0x7fff_ffff_ffff_ffff

  type Subject = string

  /** The identity fence of one sandbox instance: a change in either part is a rebind. */
  datatype Fence = Fence(runtime: string, attachment: string)
}
