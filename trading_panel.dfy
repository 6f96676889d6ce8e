/**
 * The trading panel: the ordered list of credits on offer (four seeded,
 * newest first), the single selected credit id, and how a credit's values
 * are shown, with "encrypted" ones replaced by block characters.
 */
module Trading {
  import opened Options
  import opened Credits
  import opened AddCredit

  /** The list the panel mounts with. */
  function SeedCredits(): seq<EnergyCredit> {
    [ EnergyCredit("ec-1", Solar, 150.0, 45.5, "SolarCorp Energy", false, "14:32:15"),
      EnergyCredit("ec-2", Wind, 200.0, 42.8, RedactedSeller, true, "14:31:58"),
      EnergyCredit("ec-3", Hydro, 320.0, 38.2, "HydroGrid LLC", false, "14:31:42"),
      EnergyCredit("ec-4", Solar, 180.0, 47.1, RedactedSeller, true, "14:31:20") ]
  }

  /**
   * The seeded list holds ec-1 to ec-4 in that order, and in it a seller is
   * the block string exactly when the credit is encrypted.
   */
  lemma SeedCreditsShape()
    ensures var s := SeedCredits();
      |s| == 4 && s[0].id == "ec-1" && s[1].id == "ec-2" && s[2].id == "ec-3" && s[3].id == "ec-4"
    ensures forall c :: c in SeedCredits() ==> (c.seller == RedactedSeller <==> c.encrypted)
  {
  }

  /** Some listed credit carries the id. */
  predicate Listed(id: string, credits: seq<EnergyCredit>) {
    exists k :: 0 <= k < |credits| && credits[k].id == id
  }

  /** A value handed to `formatValue`: a number or a string. */
  datatype Value = Num(n: real) | Str(s: string)

  /**
   * `formatValue`: four blocks for an encrypted value; otherwise a string as
   * it is and a number through `toFixed(1)`, which is a parameter here.
   */
  function FormatValue(value: Value, encrypted: bool, toFixed1: real -> string): string {
    if encrypted then RedactedValue
    else match value
      case Num(n) => toFixed1(n)
      case Str(s) => s
  }

  /**
   * Redaction shows the same text for every value, whatever its kind;
   * without it a string is shown unchanged.
   */
  lemma FormatValueRedacts(v: Value, w: Value, s: string, toFixed1: real -> string, other: real -> string)
    ensures FormatValue(v, true, toFixed1) == FormatValue(w, true, other) == RedactedValue
    ensures FormatValue(Str(s), false, toFixed1) == s
  {
  }

  /** The texts of one row of the list. */
  datatype CreditRow = CreditRow(
    icon: string,
    typeName: string,
    timestamp: string,
    amount: string,
    price: string,
    seller: string,
    highlighted: bool)

  function Row(c: EnergyCredit, selected: Option<string>, toFixed1: real -> string): (r: CreditRow)
    ensures TypeOfIcon(r.icon) == Some(c.energyType)
    ensures r.seller == c.seller && r.typeName == TypeName(c.energyType) && r.timestamp == c.timestamp
    ensures r.highlighted <==> selected == Some(c.id)
    ensures c.encrypted ==> r.amount == RedactedValue + " MWh" && r.price == "$" + RedactedValue
    ensures !c.encrypted ==> r.amount == toFixed1(c.amount) + " MWh" && r.price == "$" + toFixed1(c.pricePerMWh)
  {
    EnergyIconIdentifiesType(c.energyType);
    CreditRow(EnergyIcon(TypeName(c.energyType)), TypeName(c.energyType), c.timestamp,
              FormatValue(Num(c.amount), c.encrypted, toFixed1) + " MWh",
              "$" + FormatValue(Num(c.pricePerMWh), c.encrypted, toFixed1),
              c.seller, selected == Some(c.id))
  }

  /**
   * A credit listed with privacy protection shows the same row whatever
   * amount, price and seller were typed into the form.
   */
  lemma EncryptedRowHidesEnteredValues(f: FormData, g: FormData, now: nat, a1: real, p1: real, a2: real, p2: real,
                                       timestamp: string, selected: Option<string>, toFixed1: real -> string)
    requires f.encrypted && g == f.(amount := g.amount, pricePerMWh := g.pricePerMWh, seller := g.seller)
    ensures Row(NewCredit(f, now, a1, p1, timestamp), selected, toFixed1) ==
            Row(NewCredit(g, now, a2, p2, timestamp), selected, toFixed1)
  {
  }

  class TradingPanel {
    var energyCredits: seq<EnergyCredit>
    var selectedCredit: Option<string>

    /** Every listed credit has an id, and a selection always names a listed credit. */
    ghost predicate Valid()
      reads this
    {
      (forall k :: 0 <= k < |energyCredits| ==> energyCredits[k].id != "") &&
      (selectedCredit.Some? ==> Listed(selectedCredit.value, energyCredits))
    }

    constructor ()
      ensures Valid()
      ensures energyCredits == SeedCredits() && selectedCredit == None
    {
      energyCredits := SeedCredits();
      selectedCredit := None;
    }

    /**
     * `handleAddCredit`: the new credit goes first and the old list follows
     * unchanged. Its one caller, the form, passes ids of the form `ec-<digits>`.
     */
    method HandleAddCredit(newCredit: EnergyCredit)
      requires Valid() && newCredit.id != ""
      modifies this
      ensures Valid()
      ensures energyCredits == [newCredit] + old(energyCredits)
      ensures selectedCredit == old(selectedCredit)
    {
      ghost var before := energyCredits;
      energyCredits := [newCredit] + energyCredits;
      if selectedCredit.Some? {
        ghost var k :| 0 <= k < |before| && before[k].id == selectedCredit.value;
        assert energyCredits[k + 1] == before[k];
      }
    }

    /** Clicking the row at position `k` selects that credit's id; the list is not touched. */
    method ClickCredit(k: nat)
      requires Valid() && k < |energyCredits|
      modifies this
      ensures Valid()
      ensures selectedCredit == Some(old(energyCredits)[k].id)
      ensures energyCredits == old(energyCredits)
    {
      selectedCredit := Some(energyCredits[k].id);
    }

    /**
     * The form's `onAddCredit` wired to `handleAddCredit`: a submit of a
     * complete form puts the new credit at the head of the list.
     */
    method SubmitForm(form: AddCreditForm, now: nat, parseFloat: string -> real, timestamp: string)
      requires Valid()
      modifies this, form
      ensures Valid() && selectedCredit == old(selectedCredit)
      ensures SubmitDisabled(old(form.formData)) ==>
        energyCredits == old(energyCredits) && form.formData == old(form.formData) && form.isOpen == old(form.isOpen)
      ensures !SubmitDisabled(old(form.formData)) ==>
        energyCredits == [NewCredit(old(form.formData), now, parseFloat(old(form.formData).amount),
                                    parseFloat(old(form.formData).pricePerMWh), timestamp)] + old(energyCredits) &&
        form.formData == InitialFormData && !form.isOpen
    {
      var emitted := form.Submit(now, parseFloat, timestamp);
      if emitted.Some? {
        HandleAddCredit(emitted.value);
      }
    }

    /** The id the "Execute Trade" card shows, or None when the card is not rendered. */
    function TradeCard(): Option<string>
      reads this
    {
      if selectedCredit.Some? && selectedCredit.value != "" then selectedCredit else None
    }
  }

  /**
   * The trade card is rendered exactly when a credit is selected, and it
   * shows that credit's id, which is one of the listed ids.
   */
  lemma TradeCardShowsSelection(p: TradingPanel)
    requires p.Valid()
    ensures p.TradeCard() == p.selectedCredit
    ensures p.TradeCard().Some? ==> Listed(p.TradeCard().value, p.energyCredits)
  {
  }
}
