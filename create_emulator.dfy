/**
 * The "new emulator" dialog (src/components/emulators/CreateEmulator.tsx): the phone mask
 * applied as the user types, the form state, and the validation chain run on submit.
 */
module CreateEmulator {
  import opened Wrappers
  import Text
  import Ui

  function Min(a: int, b: int): int {
    if a <= b then a else b
  }

  /** The mask `(xx) xxxxx-xxxx` applied to a string of digits; digits past the eleventh are dropped. */
  function Mask(d: string): (masked: string)
    ensures |masked| <= 15
    ensures masked == "" <==> d == ""
    ensures d != "" ==> masked[0] == '('
  {
    if |d| <= 2 then (if d != "" then "(" + d else "")
    else if |d| <= 7 then "(" + d[..2] + ") " + d[2..]
    else "(" + d[..2] + ") " + d[2..7] + "-" + d[7..Min(|d|, 11)]
  }

  /** `formatPhoneInput(value)`: strip every non-digit, then mask. */
  function FormatPhoneInput(value: string): (formatted: string)
    ensures |formatted| <= 15
    ensures formatted == "" <==> Text.Digits(value) == ""
  {
    Mask(Text.Digits(value))
  }

  /** The masked text never exceeds the input's `maxLength` of 15. */
  lemma FormatLength(value: string)
    ensures |FormatPhoneInput(value)| <= 15
  {
  }

  predicate AllDigits(s: string) {
    forall i :: 0 <= i < |s| ==> Text.IsDigit(s[i])
  }

  /** The separators of the mask hold no digits. */
  lemma SeparatorsHaveNoDigits()
    ensures Text.Digits("(") == "" && Text.Digits(") ") == "" && Text.Digits("-") == ""
  {
  }

  /** Digits of `(a) b` for digit strings `a`, `b`. */
  lemma DigitsOfShortMask(a: string, b: string)
    requires AllDigits(a) && AllDigits(b)
    ensures Text.Digits("(" + a + ") " + b) == a + b
  {
    SeparatorsHaveNoDigits();
    var x := "(" + a;
    var y := x + ") ";
    Text.DigitsOfDigitString(a);
    Text.DigitsConcat("(", a);
    assert Text.Digits(x) == a;
    Text.DigitsConcat(x, ") ");
    assert Text.Digits(y) == a;
    Text.DigitsOfDigitString(b);
    Text.DigitsConcat(y, b);
  }

  /** Digits of `(a) b-c` for digit strings `a`, `b`, `c`. */
  lemma DigitsOfLongMask(a: string, b: string, c: string)
    requires AllDigits(a) && AllDigits(b) && AllDigits(c)
    ensures Text.Digits("(" + a + ") " + b + "-" + c) == a + b + c
  {
    SeparatorsHaveNoDigits();
    DigitsOfShortMask(a, b);
    Text.DigitsOfDigitString(c);
    Text.DigitsConcat("(" + a + ") " + b, "-");
    Text.DigitsConcat("(" + a + ") " + b + "-", c);
  }

  /** The digits of the mask are the first (at most eleven) digits it was given. */
  lemma MaskDigits(d: string)
    requires AllDigits(d)
    ensures Text.Digits(Mask(d)) == d[..Min(|d|, 11)]
  {
    if |d| == 0 {
    } else if |d| <= 2 {
      MaskDigitsUpTo2(d);
    } else if |d| <= 7 {
      MaskDigitsUpTo7(d);
    } else {
      MaskDigitsFrom8(d);
    }
  }

  lemma MaskDigitsUpTo2(d: string)
    requires AllDigits(d) && 0 < |d| <= 2
    ensures Text.Digits(Mask(d)) == d
  {
    assert Mask(d) == "(" + d;
    SeparatorsHaveNoDigits();
    Text.DigitsConcat("(", d);
    Text.DigitsOfDigitString(d);
  }

  lemma MaskDigitsUpTo7(d: string)
    requires AllDigits(d) && 2 < |d| <= 7
    ensures Text.Digits(Mask(d)) == d
  {
    var a, b := d[..2], d[2..];
    assert AllDigits(a) && AllDigits(b);
    assert Mask(d) == "(" + a + ") " + b;
    DigitsOfShortMask(a, b);
    assert a + b == d;
  }

  lemma MaskDigitsFrom8(d: string)
    requires AllDigits(d) && 7 < |d|
    ensures Text.Digits(Mask(d)) == d[..Min(|d|, 11)]
  {
    var m := Min(|d|, 11);
    var a, b, c := d[..2], d[2..7], d[7..m];
    assert AllDigits(a) && AllDigits(b) && AllDigits(c);
    assert Mask(d) == "(" + a + ") " + b + "-" + c;
    DigitsOfLongMask(a, b, c);
    assert a + b + c == d[..m];
  }

  /** Dropping the digits the mask ignores does not change the mask. */
  lemma MaskTruncate(d: string)
    ensures Mask(d[..Min(|d|, 11)]) == Mask(d)
  {
    var t := d[..Min(|d|, 11)];
    if |d| > 11 {
      assert t[..2] == d[..2] && t[2..7] == d[2..7] && t[7..11] == d[7..11];
    } else {
      assert t == d;
    }
  }

  /** The digits of the formatted text are the first `min(n, 11)` digits typed. */
  lemma FormatDigits(value: string)
    ensures Text.Digits(FormatPhoneInput(value)) == Text.Digits(value)[..Min(|Text.Digits(value)|, 11)]
  {
    MaskDigits(Text.Digits(value));
  }

  /** Formatting formatted text changes nothing. */
  lemma FormatIdempotent(value: string)
    ensures FormatPhoneInput(FormatPhoneInput(value)) == FormatPhoneInput(value)
  {
    var d := Text.Digits(value);
    MaskDigits(d);
    MaskTruncate(d);
  }

  /** A complete phone as the mask writes it: `(DD) DDDDD-DDDD` with a fourth or fifth final digit. */
  predicate IsFullPhoneMask(s: string) {
    (|s| == 14 || |s| == 15) && s[0] == '(' && s[3] == ')' && s[4] == ' ' && s[10] == '-'
    && forall i :: 0 <= i < |s| && i !in {0, 3, 4, 10} ==> Text.IsDigit(s[i])
  }

  /** A value with ten or eleven digits is formatted as a complete phone. */
  lemma FullPhoneIsMasked(value: string)
    requires 10 <= |Text.Digits(value)| <= 11
    ensures IsFullPhoneMask(FormatPhoneInput(value))
  {
    var d := Text.Digits(value);
    var s := FormatPhoneInput(value);
    assert s == "(" + d[..2] + ") " + d[2..7] + "-" + d[7..];
    forall i | 0 <= i < |s| && i !in {0, 3, 4, 10} ensures Text.IsDigit(s[i]) {
      if i < 3 {
        assert s[i] == d[i - 1];
      } else if i < 10 {
        assert s[i] == d[i - 3];
      } else {
        assert s[i] == d[i - 4];
      }
    }
  }

  /** A complete phone is left exactly as it is by the formatter. */
  lemma FullPhoneMaskIsFixed(s: string)
    requires IsFullPhoneMask(s)
    ensures FormatPhoneInput(s) == s
  {
    var a, b, c := s[1..3], s[5..10], s[11..];
    assert s == "(" + a + ") " + b + "-" + c;
    assert AllDigits(a) && AllDigits(b) && AllDigits(c) by {
      assert forall i :: 0 <= i < |a| ==> a[i] == s[i + 1];
      assert forall i :: 0 <= i < |b| ==> b[i] == s[i + 5];
      assert forall i :: 0 <= i < |c| ==> c[i] == s[i + 11];
    }
    DigitsOfLongMask(a, b, c);
    var d := a + b + c;
    assert Text.Digits(s) == d;
    assert d[..2] == a && d[2..7] == b && d[7..Min(|d|, 11)] == c;
  }

  // ---------------------------------------------------------------------------
  // Validation
  // ---------------------------------------------------------------------------

  /** The form record `{ name, phone, companyId }`. */
  datatype EmulatorForm = EmulatorForm(name: string, phone: string, companyId: string)

  const NameRequired := "Nome do emulador é obrigatório"
  const PhoneRequired := "Telefone é obrigatório"
  const CompanyRequired := "Empresa é obrigatória"
  const PhoneLength := "Telefone deve ter entre 10 e 11 dígitos"

  datatype Verdict = Accepted | Rejected(message: string)

  /** The checks of `handleCreateEmulator`, in order; the first that fails gives the message. */
  function Validate(form: EmulatorForm): (v: Verdict)
    ensures v == Accepted <==>
      !Text.IsBlank(form.name) && !Text.IsBlank(form.phone) && form.companyId != ""
      && 10 <= |Text.Digits(form.phone)| <= 11
    ensures v.Rejected? ==> v.message in {NameRequired, PhoneRequired, CompanyRequired, PhoneLength}
  {
    if Text.IsBlank(form.name) then Rejected(NameRequired)
    else if Text.IsBlank(form.phone) then Rejected(PhoneRequired)
    else if form.companyId == "" then Rejected(CompanyRequired)
    else
      var phoneDigits := Text.Digits(form.phone);
      if |phoneDigits| < 10 || |phoneDigits| > 11 then Rejected(PhoneLength)
      else Accepted
  }

  /** The checks in order: each message is given exactly when the checks before it pass and its own fails. */
  lemma ValidationChain(form: EmulatorForm)
    ensures Text.IsBlank(form.name) ==> ValidationEffects(form) == [Ui.Effect.Toast(Ui.ErrorToast, NameRequired, None)]
    ensures !Text.IsBlank(form.name) && Text.IsBlank(form.phone) ==>
      ValidationEffects(form) == [Ui.Effect.Toast(Ui.ErrorToast, PhoneRequired, None)]
    ensures !Text.IsBlank(form.name) && !Text.IsBlank(form.phone) && form.companyId == "" ==>
      ValidationEffects(form) == [Ui.Effect.Toast(Ui.ErrorToast, CompanyRequired, None)]
    ensures (!Text.IsBlank(form.name) && !Text.IsBlank(form.phone) && form.companyId != ""
             && !(10 <= |Text.Digits(form.phone)| <= 11)) ==>
      ValidationEffects(form) == [Ui.Effect.Toast(Ui.ErrorToast, PhoneLength, None)]
    ensures Validate(form) == Accepted <==> ValidationEffects(form) == []
  {
  }

  /** A blank phone has no digits at all, so the blank-phone check only decides which message shows. */
  lemma {:induction false} BlankPhoneHasNoDigits(phone: string)
    requires Text.IsBlank(phone)
    ensures Text.Digits(phone) == ""
  {
    Text.BlankIffAllWhitespace(phone);
    NoDigitsIn(phone);
  }

  lemma {:induction false} NoDigitsIn(s: string)
    requires forall i :: 0 <= i < |s| ==> Text.IsJsWhitespace(s[i])
    ensures Text.Digits(s) == ""
  {
    if s != [] {
      assert !Text.IsDigit(s[0]);
      assert forall i :: 0 <= i < |s[1..]| ==> s[1..][i] == s[i + 1];
      NoDigitsIn(s[1..]);
    }
  }

  /**
   * Once the phone field holds masked text, the length check fails only for fewer than ten
   * typed digits: extra digits were already dropped by the mask.
   */
  lemma MaskedPhoneLengthCheck(typed: string)
    ensures 10 <= |Text.Digits(FormatPhoneInput(typed))| <= 11 <==> 10 <= |Text.Digits(typed)|
  {
    FormatDigits(typed);
  }

  /** The toasts the submit handler shows for a form: the failing check's message, or none. */
  function ValidationEffects(form: EmulatorForm): seq<Ui.Effect> {
    match Validate(form)
    case Accepted => []
    case Rejected(message) => [Ui.Effect.Toast(Ui.ErrorToast, message, None)]
  }

  /** `error?.response?.data?.message || error?.message || "Erro desconhecido ao criar emulador"`. */
  function ErrorDetail(serverMessage: Option<string>, errorMessage: Option<string>): (detail: string)
    ensures detail != ""
    ensures serverMessage.Some? && serverMessage.value != "" ==> detail == serverMessage.value
    ensures (serverMessage.None? || serverMessage.value == "") && errorMessage.Some? && errorMessage.value != "" ==>
      detail == errorMessage.value
    ensures (serverMessage.None? || serverMessage.value == "") && (errorMessage.None? || errorMessage.value == "") ==>
      detail == UnknownCreateError
  {
    if serverMessage.Some? && serverMessage.value != "" then serverMessage.value
    else if errorMessage.Some? && errorMessage.value != "" then errorMessage.value
    else UnknownCreateError
  }

  const CreateErrorPrefix := "Erro ao criar emulador: "
  const UnknownCreateError := "Erro desconhecido ao criar emulador"

  /** The mutation's error text: the server message, else the error's own message, else a fixed text. */
  function CreateErrorMessage(serverMessage: Option<string>, errorMessage: Option<string>): (message: string)
    ensures CreateErrorPrefix <= message && |message| > |CreateErrorPrefix|
    ensures serverMessage.Some? && serverMessage.value != "" ==> message == CreateErrorPrefix + serverMessage.value
    ensures (serverMessage.None? || serverMessage.value == "") && errorMessage.Some? && errorMessage.value != "" ==>
      message == CreateErrorPrefix + errorMessage.value
    ensures (serverMessage.None? || serverMessage.value == "") && (errorMessage.None? || errorMessage.value == "") ==>
      message == CreateErrorPrefix + UnknownCreateError
  {
    var detail := ErrorDetail(serverMessage, errorMessage);
    assert (CreateErrorPrefix + detail)[..|CreateErrorPrefix|] == CreateErrorPrefix;
    CreateErrorPrefix + detail
  }

  // ---------------------------------------------------------------------------
  // The dialog's state
  // ---------------------------------------------------------------------------

  /** `CreateEmulatorModal`'s `emulatorForm` state, with the `defaultCompanyId` prop it starts from. */
  class CreateEmulatorModal {
    var name: string
    var phone: string
    var companyId: string
    const defaultCompanyId: Option<string>

    function Form(): EmulatorForm
      reads this
    {
      EmulatorForm(name, phone, companyId)
    }

    /** The phone field only ever holds masked text. */
    predicate PhoneMasked()
      reads this
    {
      FormatPhoneInput(phone) == phone
    }

    /** `useState({ name: "", phone: "", companyId: defaultCompanyId || "" })`. */
    constructor (defaultCompanyId: Option<string>)
      ensures this.defaultCompanyId == defaultCompanyId
      ensures Form() == EmulatorForm("", "", defaultCompanyId.GetOr(""))
      ensures PhoneMasked()
    {
      this.defaultCompanyId := defaultCompanyId;
      name := "";
      phone := "";
      companyId := defaultCompanyId.GetOr("");
    }

    /** The effect on `open`: opening the dialog clears the form back to the default company. */
    method ResetOnOpen(open: bool)
      modifies this
      ensures open ==> Form() == EmulatorForm("", "", defaultCompanyId.GetOr(""))
      ensures !open ==> Form() == old(Form())
      ensures old(PhoneMasked()) ==> PhoneMasked()
    {
      if open {
        name := "";
        phone := "";
        companyId := defaultCompanyId.GetOr("");
      }
    }

    /** The name input's `onChange`. */
    method SetName(value: string)
      modifies this
      ensures Form() == old(Form()).(name := value)
      ensures old(PhoneMasked()) ==> PhoneMasked()
    {
      name := value;
    }

    /** The company select's `onValueChange`. */
    method SetCompany(value: string)
      modifies this
      ensures Form() == old(Form()).(companyId := value)
      ensures old(PhoneMasked()) ==> PhoneMasked()
    {
      companyId := value;
    }

    /** `handlePhoneChange`: the phone becomes the masked text; the field is masked afterwards whatever was typed. */
    method HandlePhoneChange(value: string)
      modifies this
      ensures Form() == old(Form()).(phone := FormatPhoneInput(value))
      ensures PhoneMasked()
    {
      phone := FormatPhoneInput(value);
      FormatIdempotent(value);
    }

    /**
     * `handleCreateEmulator`: run the checks in order, toasting the first failure, and hand the
     * form to the mutation only when all pass. The form itself is not changed.
     */
    method HandleCreateEmulator(log: Ui.EffectLog) returns (submitted: Option<EmulatorForm>)
      modifies log
      ensures submitted == (if Validate(Form()) == Accepted then Some(Form()) else None)
      ensures log.events == old(log.events) + ValidationEffects(Form())
    {
      var form := Form();
      ValidationChain(form);
      if Text.IsBlank(name) {
        log.Toast(Ui.ErrorToast, NameRequired, None);
        return None;
      }
      if Text.IsBlank(phone) {
        log.Toast(Ui.ErrorToast, PhoneRequired, None);
        return None;
      }
      if companyId == "" {
        log.Toast(Ui.ErrorToast, CompanyRequired, None);
        return None;
      }
      var phoneDigits := Text.Digits(phone);
      if |phoneDigits| < 10 || |phoneDigits| > 11 {
        log.Toast(Ui.ErrorToast, PhoneLength, None);
        return None;
      }
      submitted := Some(form);
    }

    /**
     * The mutation's `onSuccess`: announce the new emulator, close the dialog and clear the form,
     * company included, then call the `onSuccess` prop when one was passed (`hasOnSuccess`).
     * `closeWith` is the value handed to `onOpenChange`; `notified` says `onSuccess` was called.
     */
    method OnCreated(createdName: string, hasOnSuccess: bool, log: Ui.EffectLog) returns (closeWith: bool, notified: bool)
      modifies this, log
      ensures !closeWith
      ensures notified == hasOnSuccess
      ensures Form() == EmulatorForm("", "", "")
      ensures PhoneMasked()
      ensures log.events == old(log.events) +
        [Ui.Effect.Toast(Ui.SuccessToast, "Emulador \"" + createdName + "\" criado com sucesso!", None)]
    {
      log.Toast(Ui.SuccessToast, "Emulador \"" + createdName + "\" criado com sucesso!", None);
      closeWith := false;
      name := "";
      phone := "";
      companyId := "";
      notified := hasOnSuccess;
    }

    /** The mutation's `onError`: report the failure; the form is kept for another try. */
    method OnCreateFailed(serverMessage: Option<string>, errorMessage: Option<string>, log: Ui.EffectLog)
      modifies log
      ensures log.events == old(log.events) + [Ui.Effect.Toast(Ui.ErrorToast, CreateErrorMessage(serverMessage, errorMessage), None)]
    {
      log.Toast(Ui.ErrorToast, CreateErrorMessage(serverMessage, errorMessage), None);
    }
  }
}
