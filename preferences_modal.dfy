/**
 * `PreferencesModal`: the first-run form that asks for a currency, an emergency-fund target in
 * months and a monthly salary, and optionally an avatar picture. It checks the picture as it is
 * picked and the form before `onSave` is called.
 */
module PreferencesModal {
  import opened Wrappers
  import AvatarService
  import TransactionApi

  /** The form's fields. */
  datatype FormData = FormData(currency: string, emergencyFundMonths: int, monthlySalary: real)

  /** The form as the modal opens. */
  const DefaultForm := FormData("USD", 3, 0.0)

  /** The values of the emergency-fund choices. */
  const MonthOptions: seq<int> := [1, 2, 3, 4, 5, 6, 12]

  /** The fields flagged by `validate`. */
  datatype FormErrors = FormErrors(monthlySalary: bool, emergencyFundMonths: bool)

  const NoErrors := FormErrors(false, false)

  /** The errors `validate` records: the salary must be positive, the target 1 to 24 months. */
  function ErrorsOf(form: FormData): (e: FormErrors)
    ensures e.monthlySalary <==> form.monthlySalary <= 0.0
    ensures e.emergencyFundMonths <==> form.emergencyFundMonths < 1 || form.emergencyFundMonths > 24
  {
    FormErrors(form.monthlySalary <= 0.0, form.emergencyFundMonths < 1 || form.emergencyFundMonths > 24)
  }

  /** The form passes when it has no error. */
  predicate IsValid(form: FormData)
  {
    ErrorsOf(form) == NoErrors
  }

  lemma ValidIff(form: FormData)
    ensures IsValid(form) <==> form.monthlySalary > 0.0 && 1 <= form.emergencyFundMonths <= 24
  {
  }

  /** The form as it opens is refused: the salary starts at 0. */
  lemma DefaultFormRefused()
    ensures ErrorsOf(DefaultForm) == FormErrors(true, false)
  {
  }

  /** Every offered target passes, once a salary is entered. */
  lemma OfferedMonthsValid(form: FormData, k: int)
    requires 0 <= k < |MonthOptions| && form.monthlySalary > 0.0
    ensures IsValid(form.(emergencyFundMonths := MonthOptions[k]))
  {
  }

  /** The emergency-fund select: `parseInt` of the chosen option's value. */
  function MonthsChange(form: FormData, value: string): (r: FormData)
    ensures r.currency == form.currency && r.monthlySalary == form.monthlySalary
  {
    form.(emergencyFundMonths := TransactionApi.ParseInt(value))
  }

  /** Choosing an option stores the number that option stands for. */
  lemma OptionChoiceStoresItsMonths(form: FormData, k: int)
    requires 0 <= k < |MonthOptions|
    ensures MonthsChange(form, TransactionApi.IntToString(MonthOptions[k])).emergencyFundMonths == MonthOptions[k]
  {
    TransactionApi.IntToStringRoundTrip(MonthOptions[k]);
  }

  /**
   * The salary input: `parseFloat(value) || 0`, with `parsed` the number `parseFloat` reads or
   * `None` for `NaN`; `NaN` and 0 both become 0.
   */
  function SalaryChange(form: FormData, parsed: Option<real>): (r: FormData)
    ensures r.currency == form.currency && r.emergencyFundMonths == form.emergencyFundMonths
    ensures parsed.None? ==> r.monthlySalary == 0.0
    ensures parsed.Some? ==> r.monthlySalary == parsed.value
  {
    form.(monthlySalary := parsed.GetOr(0.0))
  }

  /** Input that is not a number leaves a salary the form refuses. */
  lemma NonNumericSalaryRefused(form: FormData)
    ensures ErrorsOf(SalaryChange(form, None)).monthlySalary
  {
  }

  /** A picked file, as far as the checks look at it. */
  datatype PickedFile = PickedFile(size: int, mimeType: string)

  const TooLarge := "File size must be less than 5MB"
  const NotAnImage := "Only image files are allowed"

  /** Whether a MIME type starts with "image/". */
  predicate IsImageMime(mimeType: string)
  {
    |mimeType| >= 6 && mimeType[..6] == "image/"
  }

  /** The alert `handleAvatarChange` raises for a file, or `None` when the file is taken. */
  function AvatarRejection(file: PickedFile): (r: Option<string>)
    ensures file.size > AvatarService.MaxFileSize ==> r == Some(TooLarge)
    ensures file.size <= AvatarService.MaxFileSize && !IsImageMime(file.mimeType) ==> r == Some(NotAnImage)
    ensures r.None? <==> file.size <= AvatarService.MaxFileSize && IsImageMime(file.mimeType)
  {
    if file.size > 5 * 1024 * 1024 then Some(TooLarge)
    else if !IsImageMime(file.mimeType) then Some(NotAnImage)
    else None
  }

  /** A file of exactly 5 MiB is still taken. */
  lemma FiveMebibytesTaken()
    ensures AvatarRejection(PickedFile(5 * 1024 * 1024, "image/png")).None?
  {
  }

  /** Every type the user service stores passes the modal's check. */
  lemma ServerTypesPassModal(mimeType: string)
    requires AvatarService.IsImageType(Some(mimeType))
    ensures IsImageMime(mimeType)
  {
  }

  /** The modal is laxer than the user service: it takes a WebP picture the service refuses. */
  lemma ModalTakesTypesServerRefuses()
    ensures IsImageMime("image/webp") && !AvatarService.IsImageType(Some("image/webp"))
  {
  }

  /** The call `handleSubmit` makes: the form and the picked file, if any. */
  datatype SaveCall = SaveCall(form: FormData, avatar: Option<PickedFile>)

  /** The modal's state. */
  class Modal {
    var formData: FormData
    var avatarFile: Option<PickedFile>
    var errors: FormErrors

    constructor()
      ensures formData == DefaultForm && avatarFile == None && errors == NoErrors
    {
      formData := DefaultForm;
      avatarFile := None;
      errors := NoErrors;
    }

    /**
     * `handleAvatarChange`: no file picked changes nothing; a file is kept only when it passes
     * the size check and then the type check, and otherwise the alert is returned.
     */
    method HandleAvatarChange(file: Option<PickedFile>) returns (alert: Option<string>)
      modifies this
      ensures file.None? ==> alert == None
      ensures file.Some? ==> alert == AvatarRejection(file.value)
      ensures avatarFile == (if file.Some? && alert.None? then file else old(avatarFile))
      ensures formData == old(formData) && errors == old(errors)
    {
      alert := None;
      if file.Some? {
        var f := file.value;
        if f.size > 5 * 1024 * 1024 {
          alert := Some(TooLarge);
          return;
        }
        if !(|f.mimeType| >= 6 && f.mimeType[..6] == "image/") {
          alert := Some(NotAnImage);
          return;
        }
        avatarFile := file;
      }
    }

    /** `validate`: records the errors field by field and reports whether there is none. */
    method Validate() returns (ok: bool)
      modifies this
      ensures errors == ErrorsOf(formData)
      ensures ok <==> IsValid(formData)
      ensures formData == old(formData) && avatarFile == old(avatarFile)
    {
      var newErrors := NoErrors;
      if formData.monthlySalary <= 0.0 {
        newErrors := newErrors.(monthlySalary := true);
      }
      if formData.emergencyFundMonths < 1 || formData.emergencyFundMonths > 24 {
        newErrors := newErrors.(emergencyFundMonths := true);
      }
      errors := newErrors;
      ok := !newErrors.monthlySalary && !newErrors.emergencyFundMonths;
    }

    /** `handleSubmit`: `onSave` is called, with the form and the picked file, only on a valid form. */
    method HandleSubmit() returns (call: Option<SaveCall>)
      modifies this
      ensures call.None? <==> !IsValid(formData)
      ensures call.Some? ==> call.value == SaveCall(formData, avatarFile)
      ensures errors == ErrorsOf(formData)
      ensures formData == old(formData) && avatarFile == old(avatarFile)
    {
      var ok := Validate();
      if !ok {
        return None;
      }
      call := Some(SaveCall(formData, avatarFile));
    }
  }
}
