/**
 * The add-credit form: an open/closed flag and the five fields being edited.
 * Submitting a complete form emits one new credit (with the seller replaced
 * by block characters when privacy protection is on), then resets and
 * closes the form.
 */
module AddCredit {
  import opened Options
  import opened Text
  import opened Credits

  /** The form's fields: three text inputs (kept as typed), the type selector and the privacy switch. */
  datatype FormData = FormData(
    energyType: EnergyType,
    amount: string,
    pricePerMWh: string,
    seller: string,
    encrypted: bool)

  /** The fields when the component mounts, and again after every successful submit. */
  const InitialFormData: FormData := FormData(Solar, "", "", "", false)

  /**
   * The submit button's `disabled` condition: some required text field is empty
   * (the empty string is the only falsy string).
   */
  predicate SubmitDisabled(f: FormData) {
    f.amount == "" || f.pricePerMWh == "" || f.seller == ""
  }

  /** The id `ec-${Date.now()}` for the clock reading `now` (milliseconds). */
  function CreditId(now: nat): (id: string)
    ensures |id| > 3 && id[..3] == "ec-" && IsDigits(id[3..])
  {
    "ec-" + DecimalString(now)
  }

  /** Two submits get the same id exactly when they read the same clock value. */
  lemma CreditIdInjective(m: nat, n: nat)
    ensures CreditId(m) == CreditId(n) <==> m == n
  {
    if CreditId(m) == CreditId(n) {
      assert CreditId(m)[3..] == DecimalString(m);
      assert CreditId(n)[3..] == DecimalString(n);
      DecimalStringInjective(m, n);
    }
  }

  /**
   * The credit a submit of `f` emits. The clock reading, the two numbers
   * `parseFloat` made of the amount and price fields, and the time-of-day
   * text are inputs.
   */
  function NewCredit(f: FormData, now: nat, amount: real, price: real, timestamp: string): (c: EnergyCredit)
    ensures c.id == CreditId(now) && c.timestamp == timestamp
    ensures c.energyType == f.energyType && c.encrypted == f.encrypted
    ensures c.amount == amount && c.pricePerMWh == price
    ensures c.seller == if f.encrypted then RedactedSeller else f.seller
  {
    EnergyCredit(CreditId(now), f.energyType, amount, price,
                 if f.encrypted then RedactedSeller else f.seller, f.encrypted, timestamp)
  }

  /**
   * Privacy protection: an encrypted credit does not depend on the seller that
   * was typed, and turning the switch on or off changes only the seller and
   * the flag, never the id, type, amount, price or timestamp.
   */
  lemma PrivacyToggleOnlyTouchesSeller(f: FormData, seller: string, now: nat, amount: real, price: real, timestamp: string)
    ensures f.encrypted ==>
      NewCredit(f, now, amount, price, timestamp) == NewCredit(f.(seller := seller), now, amount, price, timestamp)
    ensures var on := NewCredit(f.(encrypted := true), now, amount, price, timestamp);
            var off := NewCredit(f.(encrypted := false), now, amount, price, timestamp);
            on.(seller := off.seller, encrypted := false) == off
  {
  }

  /** What the component renders. */
  datatype FormView =
    | AddButton                                                  // the closed form: one "List New Energy Credit" button
    | FormCard(submitDisabled: bool, preview: Option<Preview>)   // the open form

  /** The encrypted-mode preview: the type's icon and name beside redacted amount, price and seller. */
  datatype Preview = Preview(icon: string, typeName: string, amount: string, price: string, seller: string)

  function View(isOpen: bool, f: FormData): (v: FormView)
    ensures v.FormCard? <==> isOpen
    ensures v.FormCard? ==> (v.submitDisabled <==> SubmitDisabled(f))
    ensures v.FormCard? ==> (v.preview.Some? <==> f.encrypted)
    ensures v.FormCard? && v.preview.Some? ==>
      TypeOfIcon(v.preview.value.icon) == Some(f.energyType) &&
      v.preview.value.typeName == TypeName(f.energyType) &&
      v.preview.value.amount == RedactedValue + " MWh" &&
      v.preview.value.price == "$" + RedactedValue &&
      v.preview.value.seller == RedactedSeller
  {
    if !isOpen then AddButton
    else
      var preview := if f.encrypted
        then Some(Preview(EnergyIcon(TypeName(f.energyType)), TypeName(f.energyType),
                          RedactedValue + " MWh", "$" + RedactedValue, RedactedSeller))
        else None;
      EnergyIconIdentifiesType(f.energyType);
      FormCard(SubmitDisabled(f), preview)
  }

  /** The preview reveals nothing of the amount, price or seller typed into the form. */
  lemma PreviewHidesEnteredValues(f: FormData, amount: string, price: string, seller: string)
    ensures var g := f.(amount := amount, pricePerMWh := price, seller := seller);
            View(true, f).preview == View(true, g).preview
  {
  }

  class AddCreditForm {
    var isOpen: bool
    var formData: FormData

    constructor ()
      ensures !isOpen && formData == InitialFormData
    {
      isOpen := false;
      formData := InitialFormData;
    }

    /** The button of the closed view opens the form; the fields keep what they held. */
    method Open()
      modifies this
      ensures isOpen && formData == old(formData)
    {
      isOpen := true;
    }

    /** The X button and Cancel close the form without clearing it. */
    method Close()
      modifies this
      ensures !isOpen && formData == old(formData)
    {
      isOpen := false;
    }

    method SetType(t: EnergyType)
      modifies this
      ensures formData == old(formData).(energyType := t) && isOpen == old(isOpen)
    {
      formData := formData.(energyType := t);
    }

    method SetAmount(text: string)
      modifies this
      ensures formData == old(formData).(amount := text) && isOpen == old(isOpen)
    {
      formData := formData.(amount := text);
    }

    method SetPrice(text: string)
      modifies this
      ensures formData == old(formData).(pricePerMWh := text) && isOpen == old(isOpen)
    {
      formData := formData.(pricePerMWh := text);
    }

    method SetSeller(text: string)
      modifies this
      ensures formData == old(formData).(seller := text) && isOpen == old(isOpen)
    {
      formData := formData.(seller := text);
    }

    method SetEncrypted(checked: bool)
      modifies this
      ensures formData == old(formData).(encrypted := checked) && isOpen == old(isOpen)
    {
      formData := formData.(encrypted := checked);
    }

    /**
     * `handleSubmit`. An incomplete form emits nothing and changes nothing;
     * a complete one emits the new credit, then resets the fields and closes.
     * `now` is `Date.now()`, `parseFloat` is the number parser and
     * `timestamp` the `toLocaleTimeString` text.
     */
    method Submit(now: nat, parseFloat: string -> real, timestamp: string) returns (emitted: Option<EnergyCredit>)
      modifies this
      ensures emitted.None? <==> SubmitDisabled(old(formData))
      ensures emitted.None? ==> isOpen == old(isOpen) && formData == old(formData)
      ensures emitted.Some? ==>
        emitted.value == NewCredit(old(formData), now, parseFloat(old(formData).amount),
                                   parseFloat(old(formData).pricePerMWh), timestamp) &&
        !isOpen && formData == InitialFormData
    {
      if formData.amount == "" || formData.pricePerMWh == "" || formData.seller == "" {
        return None;
      }
      var credit := EnergyCredit(
        "ec-" + DecimalString(now),
        formData.energyType,
        parseFloat(formData.amount),
        parseFloat(formData.pricePerMWh),
        if formData.encrypted then RedactedSeller else formData.seller,
        formData.encrypted,
        timestamp);
      emitted := Some(credit);
      formData := InitialFormData;
      isOpen := false;
    }
  }
}
