/** Shared vocabulary of the two balancers: exit status codes, domain handles,
    fixed-width integer casts and the Option type used for absent values. */
module Libvirt {

  /** EXIT_SUCCESS / EXIT_FAILURE, the status codes every routine returns. */
  datatype Status = Success | Failure {
    function ExitCode(): (code: int)
      ensures code == 0 <==> Success?
    {
      if Success? then 0 else 1
    }
  }

  datatype Option<+T> = None | Some(value: T)

  /** A domain's UUID string. */
  type Uuid = string

  /** A libvirt domain handle: a unique pointer that is either empty (after a
      move, or value-initialised) or owns one hypervisor domain. */
  datatype DomainRef = Null | Domain(id: nat)

  const TWO_TO_63: int := 0x8000_0000_0000_0000
  const TWO_TO_64: int := 0x1_0000_0000_0000_0000

  /** unsigned long long */
  type U64 = x: int | 0 <= x < TWO_TO_64

  /** static_cast<signed long long> of an unsigned long long: two's complement. */
  function AsSigned(x: U64): (r: int)
    ensures -TWO_TO_63 <= r < TWO_TO_63
    ensures r % TWO_TO_64 == x
    ensures x < TWO_TO_63 ==> r == x
  {
    if x < TWO_TO_63 then x else x - TWO_TO_64
  }

  /** static_cast<std::size_t> of a signed int: a negative value wraps. */
  function AsUnsigned(x: int): (r: U64)
    requires -TWO_TO_63 <= x < TWO_TO_63
    ensures r % TWO_TO_64 == x % TWO_TO_64
    ensures 0 <= x ==> r == x
  {
    if x < 0 then x + TWO_TO_64 else x
  }
}
