/** Names shared by every module: addresses, bytes, the u64 range and the client's error values. */
module Types {

  type Address = nat

  type Byte = b: nat | b < 256

  type Bytes = seq<Byte>

  const U64: nat := 0x1_0000_0000_0000_0000

  datatype Option<+T> = None | Some(value: T)

  /** The client's `Error`, without the texts and logs. */
  datatype Error =
    | NotLanded
    | TooLarge(size: nat, limit: nat)
    | NotFound(address: Address)
    | Program
    | Crypto
    | Insufficient(available: nat, requested: nat)
    | Invalid

  datatype Result<+T> = Ok(value: T) | Err(error: Error)

  predicate Distinct<T(==)>(s: seq<T>) {
    forall i, j | 0 <= i < j < |s| :: s[i] != s[j]
  }

  function Firsts<A, B>(pairs: seq<(A, B)>): (r: seq<A>)
    ensures |r| == |pairs|
    ensures forall i | 0 <= i < |pairs| :: r[i] == pairs[i].0
  {
    seq(|pairs|, i requires 0 <= i < |pairs| => pairs[i].0)
  }
}
