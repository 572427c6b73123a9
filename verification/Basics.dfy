/** Small shared vocabulary: optional values and bytes. */
module Basics {

  datatype Option<+T> = None | Some(value: T)

  newtype byte = x: int | 0 <= x < 256

  type Bytes = seq<byte>

  /** Largest value of the source's 64-bit `usize`. */
  const USIZE_MAX: nat := 0xFFFF_FFFF_FFFF_FFFF

  /** Some identity that is not in use; callers learn nothing else about it. */
  method FreshId(used: set<nat>) returns (id: nat)
    ensures id !in used
  {
    id := 0;
    while id in used
      invariant forall x :: 0 <= x < id ==> x in used
      decreases |set x | x in used && x >= id|
    {
      var before, after := set x | x in used && x >= id, set x | x in used && x >= id + 1;
      assert before == after + {id};
      id := id + 1;
    }
  }
}
