/**
 * `CreditCardFormService`: builds, reads, checks and resets the credit-card
 * form, and carries its own copies of three display formatters.
 */
module CreditCardForm {
  import opened Wrappers
  import opened Text
  import opened Models
  import opened Forms
  import opened FormConfigs
  import UiFormatters

  /** The service's `maskCardNumber`, the same code as the shared formatter. */
  function MaskCardNumber(cardNumber: string): (r: string)
    ensures |cardNumber| < 4 ==> r == cardNumber
    ensures |cardNumber| >= 4 ==> r == "**** **** **** " + cardNumber[|cardNumber| - 4..]
  {
    UiFormatters.MaskCardNumber(cardNumber)
  }

  /**
   * The service's `formatCardNumber`, the same code as the shared formatter:
   * groups of four digits, a space only before a following digit, and the
   * digits read back are the input's.
   */
  function FormatCardNumber(cardNumber: string): (r: string)
    ensures r == UiFormatters.FormatCardNumber(cardNumber)
    ensures Digits(r) == Digits(cardNumber)
    ensures Digits(cardNumber) == [] ==> r == []
    ensures Digits(cardNumber) != [] ==> |r| == |Digits(cardNumber)| + (|Digits(cardNumber)| - 1) / 4
    ensures forall k :: 0 <= k < |r| ==> (r[k] == ' ' <==> k % 5 == 4)
    ensures forall k :: 0 <= k < |r| ==> r[k] == ' ' || IsDigit(r[k])
  {
    UiFormatters.FormatCardNumber(cardNumber)
  }

  /** The service's `formatExpiration`, the same code as the shared formatter: "dd/" and up to two more digits, or the bare digits when fewer than two. */
  function FormatExpiration(expiration: string): (r: string)
    ensures r == UiFormatters.FormatExpiration(expiration)
    ensures |Digits(expiration)| < 2 ==> r == Digits(expiration)
    ensures |Digits(expiration)| >= 2 ==>
      var d := Digits(expiration);
      r == d[..2] + "/" + d[2..if |d| < 4 then |d| else 4]
  {
    UiFormatters.FormatExpiration(expiration)
  }

  /** `getCreditCardFormData`: the form's value as a card, an empty identifier made absent. */
  function GetCreditCardFormData(value: CardFormValue): (r: CreditCard)
    ensures r.cardId == (if value.cardId == "" then None else Some(value.cardId))
    ensures r.cardType == value.cardType && r.cardNumber == value.cardNumber
    ensures r.cardHolderName == value.cardHolderName && r.cardExpires == value.cardExpires
    ensures r.cardCvv == value.cardCvv && r.isDefault == value.isDefault
  {
    CreateCreditCardFromForm(value)
  }

  /**
   * `validateCreditCardForm`: the same collection of messages as
   * `extractFormErrors`; valid only when the form is not invalid and no
   * message was found.
   */
  method ValidateCreditCardForm(form: seq<Control>) returns (isValid: bool, errors: seq<string>)
    ensures errors == (if FormInvalid(form) then Messages(form) else [])
    ensures isValid <==> !FormInvalid(form)
    ensures isValid ==> errors == []
  {
    errors := CollectErrors(form);
    isValid := !FormInvalid(form) && |errors| == 0;
  }

  /**
   * An invalid form can report no message at all: the card type uses
   * Angular's own `required`, whose error entry has no message. Such a form is
   * still reported as not valid.
   */
  lemma InvalidWithoutMessage(form: seq<Control>, i: nat)
    requires i < |form| && form[i].errors == [ErrorEntry("required", "")]
    requires forall j :: 0 <= j < |form| && j != i ==> form[j].errors == []
    ensures FormInvalid(form) && Messages(form) == []
  {
    assert ControlInvalid(form[i]);
    NoMessages(form);
  }

  /** No control has an entry with a message: no messages are collected. */
  lemma {:induction false} NoMessages(form: seq<Control>)
    requires forall j, k :: 0 <= j < |form| && 0 <= k < |form[j].errors| ==> form[j].errors[k].message == ""
    ensures Messages(form) == []
  {
    if form != [] {
      NoMessages(form[..|form| - 1]);
      NoEntryMessages(form[|form| - 1].errors);
    }
  }

  lemma {:induction false} NoEntryMessages(errors: seq<ErrorEntry>)
    requires forall k :: 0 <= k < |errors| ==> errors[k].message == ""
    ensures EntryMessages(errors) == []
  {
    if errors != [] {
      NoEntryMessages(errors[..|errors| - 1]);
    }
  }

  /** The values `resetCreditCardForm` writes. */
  function ResetValue(): (v: CardFormValue)
    ensures v.cardType == "visa" && !v.isDefault
    ensures v.cardId == "" && v.cardNumber == "" && v.cardHolderName == "" && v.cardExpires == "" && v.cardCvv == ""
  {
    CardFormValue("", "visa", "", "", "", "", false)
  }

  /** The values the reset writes are the defaults of the card form's declarative definition. */
  lemma ResetMatchesConfig()
    ensures var config := GetCreditCardFormConfig();
      && config[0].value == Text(ResetValue().cardId)
      && config[1].value == Text(ResetValue().cardType)
      && config[2].value == Text(ResetValue().cardNumber)
      && config[3].value == Text(ResetValue().cardHolderName)
      && config[4].value == Text(ResetValue().cardExpires)
      && config[5].value == Text(ResetValue().cardCvv)
      && config[6].value == Flag(ResetValue().isDefault)
  {
  }

  /** A `Partial<CreditCard>`: `None` for a property the card does not carry. */
  datatype PartialCard = PartialCard(
    cardId: Option<string>, cardType: Option<string>, cardNumber: Option<string>, cardHolderName: Option<string>,
    cardExpires: Option<string>, cardCvv: Option<string>, isDefault: Option<bool>)

  /** A stored card, which carries every property but possibly its identifier. */
  function AsPartial(c: CreditCard): PartialCard {
    PartialCard(c.cardId, Some(c.cardType), Some(c.cardNumber), Some(c.cardHolderName), Some(c.cardExpires), Some(c.cardCvv),
                Some(c.isDefault))
  }

  /** `x || fallback` for an optional text: absent and empty both give the fallback. */
  function OrText(x: Option<string>, fallback: string): (r: string)
    ensures x.Some? && x.value != "" ==> r == x.value
    ensures x.None? || x.value == "" ==> r == fallback
  {
    if x.Some? && x.value != "" then x.value else fallback
  }

  /**
   * The initial value `createCreditCardForm` gives a partial card (or no
   * card): each carried, non-empty text; '' for anything else, except the
   * card type, which falls back to 'visa'; the flag only when it is `true`.
   */
  function InitialValue(card: Option<PartialCard>): (v: CardFormValue)
    ensures card.None? ==> v == ResetValue()
    ensures v.cardType != ""
    ensures card.Some? ==>
      var c := card.value;
      && v.cardId == c.cardId.GetOr("") && v.cardNumber == c.cardNumber.GetOr("")
      && v.cardHolderName == c.cardHolderName.GetOr("") && v.cardExpires == c.cardExpires.GetOr("")
      && v.cardCvv == c.cardCvv.GetOr("")
      && (c.cardType.Some? && c.cardType.value != "" ==> v.cardType == c.cardType.value)
      && (c.cardType.None? || c.cardType.value == "" ==> v.cardType == "visa")
      && (v.isDefault <==> c.isDefault == Some(true))
  {
    match card
    case None => CardFormValue("", "visa", "", "", "", "", false)
    case Some(c) =>
      CardFormValue(OrText(c.cardId, ""), OrText(c.cardType, "visa"), OrText(c.cardNumber, ""),
                    OrText(c.cardHolderName, ""), OrText(c.cardExpires, ""), OrText(c.cardCvv, ""),
                    c.isDefault.GetOr(false))
  }

  /** A card that carries no property opens the form exactly as no card does. */
  lemma EmptyCardIsDefault()
    ensures InitialValue(Some(PartialCard(None, None, None, None, None, None, None))) == InitialValue(None)
  {
  }

  /** Opening a stored card in the form and submitting it unedited gives back the same card. */
  lemma EditUnchangedRoundTrip(card: CreditCard)
    requires card.cardId != Some("") && card.cardType != ""
    ensures GetCreditCardFormData(InitialValue(Some(AsPartial(card)))) == card
  {
  }

  /** The state of the card form that the service reads and resets. */
  class CardFormGroup {
    var value: CardFormValue
    var pristine: bool
    var touched: bool

    /** `createCreditCardForm`: a fresh, untouched form holding the card's values or the defaults. */
    constructor (card: Option<PartialCard>)
      ensures value == InitialValue(card)
      ensures pristine && !touched
    {
      value := InitialValue(card);
      pristine := true;
      touched := false;
    }

    /** `resetCreditCardForm`: the default values again, and the form pristine and untouched. */
    method Reset()
      modifies this
      ensures value == ResetValue()
      ensures pristine && !touched
    {
      value := CardFormValue("", "visa", "", "", "", "", false);
      pristine := true;
      touched := false;
    }
  }
}
