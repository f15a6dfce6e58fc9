/** Machine words of the kernel's C code.  Assigning an unbounded result to one of
    these types obliges the verifier to show that the C expression did not wrap. */
module Words {
  type u8 = x: int | 0 <= x < 0x100
  type u32 = x: int | 0 <= x < 0x1_0000_0000
  type u64 = x: int | 0 <= x < 0x1_0000_0000_0000_0000

  const U64_MAX: u64 := 0xFFFF_FFFF_FFFF_FFFF

  datatype Option<+T> = None | Some(value: T)

  function One(b: bool): (n: nat) {
    if b then 1 else 0
  }

  /** At most the first `n` elements. */
  function First<T>(s: seq<T>, n: nat): (r: seq<T>) {
    if |s| <= n then s else s[..n]
  }
}
