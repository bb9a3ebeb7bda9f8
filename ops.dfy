/** The operation vocabulary of a name space file: the placement bits of a
    bind or mount, the action codes, and the parsed command record. */
module Ops {

  /** A placement flag. Go declares it as `int`, but only its low five bits are
      ever set or tested, so eight bits hold every value that matters. */
  type MountFlag = bv8

  /** An action code (a Plan 9 system call number, or a pseudo call). */
  type Syzcall = int

  // Placement bits (bind(2)): REPL is the zero value, the others are single bits.
  const REPL: MountFlag := 0x0000
  const BEFORE: MountFlag := 0x0001
  const AFTER: MountFlag := 0x0002
  const CREATE: MountFlag := 0x0004
  const CACHE: MountFlag := 0x0010

  /** Every placement bit a flag token can set. */
  const PLACEMENT_BITS: MountFlag := BEFORE | AFTER | CREATE | CACHE

  // Action codes.
  const BIND: Syzcall := 2
  const CHDIR: Syzcall := 3
  const UNMOUNT: Syzcall := 35
  const MOUNT: Syzcall := 46
  const RFORK: Syzcall := 19
  const IMPORT: Syzcall := 7
  const INCLUDE: Syzcall := 14

  datatype Option<T> = None | Some(value: T)

  datatype Result<T, E> = Ok(value: T) | Err(error: E)

  /** One parsed line: the action, its placement and its operands. */
  datatype Cmd = Cmd(syscall: Syzcall, flag: MountFlag, args: seq<string>)

  /** A parsed name space file, in source line order. */
  type File = seq<Cmd>

  predicate IsAction(code: Syzcall) {
    code == BIND || code == CHDIR || code == UNMOUNT || code == MOUNT
    || code == RFORK || code == IMPORT || code == INCLUDE
  }

  /** A placement made only of the bits a flag token can set. */
  predicate IsPlacement(f: MountFlag) {
    f & PLACEMENT_BITS == f
  }

  /** The non-zero placements are pairwise disjoint single bits, REPL is zero,
      and together they make 0x17. */
  lemma PlacementBits()
    ensures REPL == 0
    ensures BEFORE & (BEFORE - 1) == 0 && AFTER & (AFTER - 1) == 0
    ensures CREATE & (CREATE - 1) == 0 && CACHE & (CACHE - 1) == 0
    ensures BEFORE & AFTER == 0 && BEFORE & CREATE == 0 && BEFORE & CACHE == 0
    ensures AFTER & CREATE == 0 && AFTER & CACHE == 0 && CREATE & CACHE == 0
    ensures PLACEMENT_BITS == 0x17
  {
  }

  /** OR-ing placement bits loses nothing: a placement is the OR of the
      single bits it contains, and each bit can be read back. */
  lemma PlacementDecomposes(f: MountFlag)
    requires IsPlacement(f)
    ensures f == (f & BEFORE) | (f & AFTER) | (f & CREATE) | (f & CACHE)
    ensures (f & BEFORE != 0) == (f & BEFORE == BEFORE)
    ensures (f & AFTER != 0) == (f & AFTER == AFTER)
    ensures (f & CREATE != 0) == (f & CREATE == CREATE)
    ensures (f & CACHE != 0) == (f & CACHE == CACHE)
  {
  }

  /** The seven action codes are pairwise distinct. */
  lemma ActionCodesDistinct()
    ensures |{BIND, CHDIR, UNMOUNT, MOUNT, RFORK, IMPORT, INCLUDE}| == 7
  {
  }
}
