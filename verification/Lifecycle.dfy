/** The stored lifecycle byte of a service and the lifecycle derived from it. */
module Lifecycles {

  newtype Byte = x: int | 0 <= x < 256

  datatype Lifecycle = Running | ShuttingDown | Stopping | Terminated

  /** The discriminant that is stored for a lifecycle. */
  function Code(l: Lifecycle): Byte {
    match l
    case Running => 0
    case ShuttingDown => 1
    case Stopping => 2
    case Terminated => 3
  }

  /** Observers must never see this rank decrease. */
  function Rank(l: Lifecycle): nat {
    Code(l) as int
  }

  /** Decodes a stored byte; every value above the last discriminant is clamped. */
  function FromByte(value: Byte): Lifecycle {
    var states := [Running, ShuttingDown, Stopping, Terminated];
    states[if value < Code(Terminated) then value as int else Code(Terminated) as int]
  }

  lemma DecodingInvertsEncoding(l: Lifecycle, value: Byte)
    ensures FromByte(Code(l)) == l
    ensures FromByte(value) == l <==> value == Code(l) || (l == Terminated && Code(l) <= value)
  {
    match l
    case Running =>
    case ShuttingDown =>
    case Stopping =>
    case Terminated =>
  }

  /** Graceful shutdown leaves a service alone that has already left Running. */
  function ShutdownOf(l: Lifecycle): Lifecycle {
    if l == Running then ShuttingDown else l
  }

  /** The lifecycle that observers derive from the stored one and from the task counts. */
  function Derived(stored: Lifecycle, empty: bool): Lifecycle {
    if stored != Running && empty then Terminated else stored
  }

  /** The atomic byte shared by all clones of a service. */
  class LifecycleCell {
    var bits: Byte

    ghost function Stored(): Lifecycle
      reads this
    {
      FromByte(bits)
    }

    /** Only the first three discriminants are ever stored. */
    ghost predicate Valid()
      reads this
    {
      bits <= Code(Stopping)
    }

    constructor ()
      ensures Valid() && Stored() == Running
    {
      bits := 0;
    }

    method Load() returns (l: Lifecycle)
      ensures l == Stored()
      ensures Valid() ==> l != Terminated
    {
      l := FromByte(bits);
    }

    method Shutdown()
      modifies this
      ensures Stored() == ShutdownOf(old(Stored()))
      ensures Stored() == if old(Stored()) == Running then ShuttingDown else old(Stored())
      ensures old(Stored()) != Running ==> bits == old(bits)
      ensures old(Valid()) ==> Valid() && Stored() != Running && Rank(old(Stored())) <= Rank(Stored())
    {
      if FromByte(bits) == Running {
        bits := Code(ShuttingDown);
      }
    }

    method Stop()
      modifies this
      ensures Stored() == Stopping && Valid() && bits == 2
      ensures old(Valid()) ==> Rank(old(Stored())) <= Rank(Stored())
    {
      bits := Code(Stopping);
    }
  }
}
