/** Types, machine-integer conversions and facts about lists shared by the modules. */
module Common {

  type byte = b: int | 0 <= b < 256

  datatype Option<+T> = None | Some(value: T)

  const TWO_31 := 0x8000_0000
  const TWO_32 := 0x1_0000_0000

  /** The largest payload of one packet. */
  const MAX_PAYLOAD := 0x10_0000

  type uint32 = v: int | 0 <= v < TWO_32

  /** Storing a value in a `uint32_t`. */
  function AsUint32(v: int): (u: uint32)
    ensures 0 <= v < TWO_32 ==> u == v
  {
    v % TWO_32
  }

  /** Reading four bytes that hold a `uint32_t` as an `int32_t`. */
  function AsInt32(u: uint32): int {
    if u < TWO_31 then u else u - TWO_32
  }

  function Min(a: int, b: int): int {
    if a < b then a else b
  }

  function Max(a: int, b: int): int {
    if a < b then b else a
  }

  /** What `writev` did: took `n` bytes, would block, or failed. */
  datatype WriteResult = Wrote(n: nat) | WouldBlock | Failed

  lemma {:induction false} Associative<T>(a: seq<T>, b: seq<T>, c: seq<T>)
    ensures a + b + c == a + (b + c)
  {
  }

  /** The members of `list` that are not in `gone`, in order. */
  function Without<T(==)>(list: seq<T>, gone: set<T>): seq<T> {
    if list == [] then []
    else (if list[0] in gone then [] else [list[0]]) + Without(list[1..], gone)
  }

  lemma {:induction false} WithoutKeeps<T>(list: seq<T>, gone: set<T>, x: T)
    ensures x in Without(list, gone) <==> x in list && x !in gone
  {
    if list != [] {
      assert list == [list[0]] + list[1..];
      WithoutKeeps(list[1..], gone, x);
    }
  }
}
