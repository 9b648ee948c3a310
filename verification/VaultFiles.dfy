/** The images a vault file can have. */
module VaultFiles {
  import opened Basics

  datatype VaultPhase = EmptyState | ActiveState | DeletedState

  /** A vault file: v1, v2 with its lineage, or bytes this build cannot read as either. */
  datatype VaultImage =
    | NoFile
    | V1(fence: Fence, rev: int)
    | V2(fence: Fence, state: VaultPhase, lineage: string, initialization: string, seqno: nat, rev: int)
    | Malformed                // corrupt, and not recognizable as v2 or newer
    | Unsupported              // a newer schema, or a v2 shape this build cannot interpret

  const VERSION_2: int := 2

  /** The version a decode reports; a failed decode reports none. */
  function Version(image: VaultImage): int {
    match image
    case V1(_, _) => 1
    case V2(_, _, _, _, _, _) => VERSION_2
    case _ => 0
  }
}
