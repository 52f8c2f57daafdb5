/**
 * The write path to the microinverters: the Modbus register each command
 * targets and the entities that issue them. Writes go to the network
 * client; here each one is recorded in a ghost log of attempted writes.
 */
module Commands {
  /** Register layout: six registers per microinverter. */
  const Stride: nat := 6
  const OnOffBase: nat := 0xC006
  const PowerLimitBase: nat := 0xC007

  /** One call into the network client. */
  datatype Write = SetActivePower(address: nat, value: int) | SetOnOff(address: nat, on: bool)

  /** The power-limit register of microinverter `index`. */
  function PowerLimitAddress(index: nat): (a: nat)
    ensures a % Stride == 1
    ensures (a - PowerLimitBase) / Stride == index
  {
    index * Stride + PowerLimitBase
  }

  /** The on/off register of microinverter `index`. */
  function OnOffAddress(index: nat): (a: nat)
    ensures a % Stride == 0
    ensures (a - OnOffBase) / Stride == index
  {
    index * Stride + OnOffBase
  }

  /**
   * Distinct microinverters get distinct registers of each kind, and no
   * power-limit register is ever an on/off register.
   */
  lemma AddressesDistinct(i: nat, j: nat)
    ensures i != j ==> PowerLimitAddress(i) != PowerLimitAddress(j)
    ensures i != j ==> OnOffAddress(i) != OnOffAddress(j)
    ensures PowerLimitAddress(i) != OnOffAddress(j)
  {
  }

  /** The power-limit number entity of one microinverter. */
  class InverterInput {
    const index: nat
    /** `_value`: set once to 100 and never written again. */
    const value: int := 100
    ghost var writes: seq<Write>

    constructor (index: nat)
      ensures this.index == index && value == 100 && writes == []
    {
      this.index := index;
      writes := [];
    }

    /** `native_value`: always 100, since no write updates `_value`. */
    function NativeValue(): (r: int)
      ensures r == 100
    {
      value
    }

    /** `set_native_value` with the percentage already rounded: one write of it to the power-limit register. */
    method SetNativeValue(rounded: int)
      modifies this`writes
      ensures writes == old(writes) + [SetActivePower(PowerLimitAddress(index), rounded)]
      ensures NativeValue() == 100
    {
      writes := writes + [SetActivePower(index * 6 + 0xC007, rounded)];
    }
  }

  /** The on/off switch entity of one microinverter. */
  class InverterBoolean {
    const index: nat
    /** `_is_on`: set once to True and never written again. */
    const isOn: bool := true
    ghost var writes: seq<Write>

    constructor (index: nat)
      ensures this.index == index && isOn && writes == []
    {
      this.index := index;
      writes := [];
    }

    /** `is_on`: True whatever has been written to the microinverter. */
    function IsOn(): (r: bool)
      ensures r
    {
      isOn
    }

    /** `turn_on`: writes True to the on/off register; `is_on` does not change. */
    method TurnOn()
      modifies this`writes
      ensures writes == old(writes) + [SetOnOff(OnOffAddress(index), true)]
      ensures IsOn()
    {
      writes := writes + [SetOnOff(index * 6 + 0xC006, true)];
    }

    /** `turn_off`: writes False to the on/off register; `is_on` does not change. */
    method TurnOff()
      modifies this`writes
      ensures writes == old(writes) + [SetOnOff(OnOffAddress(index), false)]
      ensures IsOn()
    {
      writes := writes + [SetOnOff(index * 6 + 0xC006, false)];
    }
  }
}
