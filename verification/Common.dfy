/** A value that may be missing, and Go's (value, error) pair. */
module Results {
  datatype Option<+T> = None | Some(value: T)
  datatype Result<+T, +E> = Ok(value: T) | Err(error: E)
}

/** Go's fixed-width unsigned integers. */
module MachineInts {
  type Byte = b: int | 0 <= b < 256
  type U16 = n: int | 0 <= n < 0x1_0000
  type U32 = n: int | 0 <= n < 0x1_0000_0000
}

/** The NewXxxID functions of domain: random identifiers, modelled as ones not in use. */
module Identifiers {
  method NewID(prefix: string, taken: set<string>) returns (id: string)
    ensures id !in taken
  {
    id := prefix;
    ghost var tried: set<string> := {};
    while id in taken
      invariant tried <= taken && forall x :: x in tried ==> |x| < |id|
      decreases taken - tried
    {
      tried := tried + {id};
      var digits: string := *;
      id := id + "0" + digits;
    }
  }
}
