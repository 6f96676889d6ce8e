/**
 * The energy-credit record shared by the add-credit form and the trading
 * panel, the block-character strings that stand in for "encrypted" values,
 * and the icon each energy type is shown with.
 */
module Credits {
  import opened Options

  datatype EnergyType = Solar | Wind | Hydro

  /** The string literal JavaScript uses for each member of the type union. */
  function TypeName(t: EnergyType): string {
    match t
    case Solar => "solar"
    case Wind => "wind"
    case Hydro => "hydro"
  }

  /**
   * One listed credit. `amount` and `pricePerMWh` are the numbers `parseFloat`
   * produced (NaN is not modelled); `timestamp` is the wall-clock text.
   */
  datatype EnergyCredit = EnergyCredit(
    id: string,
    energyType: EnergyType,
    amount: real,
    pricePerMWh: real,
    seller: string,
    encrypted: bool,
    timestamp: string)

  const Block: char := '\U{2588}'

  /** Twelve block characters: what an "encrypted" seller is stored and shown as. */
  const RedactedSeller: string := [Block, Block, Block, Block, Block, Block, Block, Block, Block, Block, Block, Block]

  /** Four block characters: what an "encrypted" number or capacity is shown as. */
  const RedactedValue: string := [Block, Block, Block, Block]

  const SunIcon: string := "\U{2600}\U{FE0F}"
  const WindIcon: string := "\U{1F4A8}"
  const DropletIcon: string := "\U{1F4A7}"
  const BoltIcon: string := "\U{26A1}"

  /** `getEnergyIcon`: the icon for a type name, with a bolt for any other string. */
  function EnergyIcon(typeName: string): (icon: string)
    ensures TypeOfIcon(icon).Some? <==> typeName in {"solar", "wind", "hydro"}
    ensures TypeOfIcon(icon).Some? ==> TypeName(TypeOfIcon(icon).value) == typeName
  {
    if typeName == "solar" then SunIcon
    else if typeName == "wind" then WindIcon
    else if typeName == "hydro" then DropletIcon
    else BoltIcon
  }

  /** Reads an icon back: the energy type it stands for, if any. */
  function TypeOfIcon(icon: string): Option<EnergyType> {
    if icon == SunIcon then Some(Solar)
    else if icon == WindIcon then Some(Wind)
    else if icon == DropletIcon then Some(Hydro)
    else None
  }

  /**
   * Every energy type gets an icon of its own: the type can be read back from it.
   */
  lemma EnergyIconIdentifiesType(t: EnergyType)
    ensures TypeOfIcon(EnergyIcon(TypeName(t))) == Some(t)
  {
  }

  /** Any string that names no energy type gets the bolt, which stands for no type. */
  lemma EnergyIconDefault(other: string)
    requires other != "solar" && other != "wind" && other != "hydro"
    ensures EnergyIcon(other) == BoltIcon && TypeOfIcon(EnergyIcon(other)) == None
  {
  }
}
