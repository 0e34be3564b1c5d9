/**
 * The company settings form (components/settings/company-form.tsx). The form keeps
 * the values being edited next to a snapshot of the values last saved; a field is
 * saved when it loses focus, "Save changes" saves them all, and the danger zone
 * deletes the company once its name has been typed.
 */
module CompanyForm {
  import opened Wrappers

  /** The editable columns of a company. */
  datatype CompanyField =
    | Name | CompanyRegistrationId | TaxId | AddressLine1 | AddressLine2 | City
    | PostalCode | Country | BankAccountName | BankAccountNumber | BankBic
  {
    /** The column name, as sent to the server. */
    function Key(): string {
      match this
      case Name => "name"
      case CompanyRegistrationId => "company_registration_id"
      case TaxId => "tax_id"
      case AddressLine1 => "address_line1"
      case AddressLine2 => "address_line2"
      case City => "city"
      case PostalCode => "postal_code"
      case Country => "country"
      case BankAccountName => "bank_account_name"
      case BankAccountNumber => "bank_account_number"
      case BankBic => "bank_bic"
    }
  }

  /** The fields in the order of the form object's keys. */
  const AllFields: seq<CompanyField> :=
    [Name, CompanyRegistrationId, TaxId, AddressLine1, AddressLine2, City,
     PostalCode, Country, BankAccountName, BankAccountNumber, BankBic]

  /** A value per field. */
  type FormValues = map<CompanyField, string>

  predicate Complete(m: FormValues) {
    forall f: CompanyField :: f in m
  }

  /** The company row: a column is absent when it is null. */
  type CompanyRow = map<CompanyField, string>

  /** The initial form: `company.<column> || ''` for every field. */
  function InitialForm(company: CompanyRow): (r: FormValues)
    ensures Complete(r)
    ensures forall f :: r[f] == "" <==> f !in company || company[f] == ""
    ensures forall f :: f in company ==> r[f] == company[f]
  {
    EveryFieldListed();
    map f: CompanyField | f in AllFields :: if f in company then company[f] else ""
  }

  /** Some field holds a different value in the two maps. */
  predicate Differs(a: FormValues, b: FormValues) {
    exists f :: f in a && f in b && a[f] != b[f]
  }

  /** `keys.some((key) => formData[key] !== initialDataRef.current[key])` */
  function HasChanges(keys: seq<CompanyField>, form: FormValues, snapshot: FormValues): (r: bool)
    requires Complete(form) && Complete(snapshot)
    ensures r <==> exists i :: 0 <= i < |keys| && form[keys[i]] != snapshot[keys[i]]
  {
    if keys == [] then false
    else form[keys[0]] != snapshot[keys[0]] || HasChanges(keys[1..], form, snapshot)
  }

  /** Going through the form's keys finds a difference exactly when there is one,
      that is, exactly when the two maps are not equal. */
  lemma HasChangesIffDiffers(form: FormValues, snapshot: FormValues)
    requires Complete(form) && Complete(snapshot)
    ensures HasChanges(AllFields, form, snapshot) <==> Differs(form, snapshot)
    ensures Differs(form, snapshot) <==> form != snapshot
  {
    if Differs(form, snapshot) {
      var f :| f in form && f in snapshot && form[f] != snapshot[f];
      FieldListed(f);
      var i :| 0 <= i < |AllFields| && AllFields[i] == f;
      assert form[AllFields[i]] != snapshot[AllFields[i]];
    }
    if !Differs(form, snapshot) {
      assert form.Keys == snapshot.Keys;
    }
  }

  lemma EveryFieldListed()
    ensures forall f: CompanyField :: f in AllFields
  {
    forall f: CompanyField
      ensures f in AllFields
    {
      FieldListed(f);
    }
  }

  /** Every field is one of the form's keys. */
  lemma FieldListed(f: CompanyField)
    ensures exists i :: 0 <= i < |AllFields| && AllFields[i] == f
  {
    match f
    case Name => assert AllFields[0] == f;
    case CompanyRegistrationId => assert AllFields[1] == f;
    case TaxId => assert AllFields[2] == f;
    case AddressLine1 => assert AllFields[3] == f;
    case AddressLine2 => assert AllFields[4] == f;
    case City => assert AllFields[5] == f;
    case PostalCode => assert AllFields[6] == f;
    case Country => assert AllFields[7] == f;
    case BankAccountName => assert AllFields[8] == f;
    case BankAccountNumber => assert AllFields[9] == f;
    case BankBic => assert AllFields[10] == f;
  }

  /** What a save answered. */
  datatype SaveResult = Saved | SaveFailed(error: Option<string>)

  /** A toast shown after a save or a delete. */
  datatype Toast = ErrorToast(message: string) | SuccessToast(message: string)

  /** `result.error || fallback` */
  function ErrorMessage(error: Option<string>, fallback: string): (m: string)
    ensures error.Some? && error.value != "" ==> m == error.value
    ensures error.None? || error.value == "" ==> m == fallback
  {
    if error.Some? && error.value != "" then error.value else fallback
  }

  /** A single field sent by a blur-save. */
  datatype FieldUpdate = FieldUpdate(field: string, value: string)

  /** Whether the delete button is enabled. */
  predicate CanConfirmDelete(typedName: string, companyName: string, deleting: bool) {
    typedName == companyName && !deleting
  }

  /** Saving the only field that differs leaves nothing to save, although the form
      was dirty before: after a blur-save of that field the snapshot equals the
      form. */
  lemma SavingOnlyChangeLeavesNothingDirty(form: FormValues, snapshot: FormValues, field: CompanyField)
    requires Complete(form) && Complete(snapshot)
    requires form[field] != snapshot[field]
    requires forall g :: g != field ==> form[g] == snapshot[g]
    ensures Differs(form, snapshot)
    ensures !Differs(form, snapshot[field := form[field]])
  {
    var saved := snapshot[field := form[field]];
    assert form.Keys == saved.Keys;
    assert form == saved;
  }

  /** The delete button is enabled exactly for the company's own name, typed
      exactly, while no delete runs. */
  lemma DeleteGate(typedName: string, companyName: string, deleting: bool)
    ensures CanConfirmDelete(typedName, companyName, deleting) ==> typedName == companyName
    ensures deleting ==> !CanConfirmDelete(typedName, companyName, deleting)
    ensures typedName != companyName ==> !CanConfirmDelete(typedName, companyName, deleting)
  {
  }

  /** The form's state: `formData`, the saved snapshot (`initialDataRef.current`)
      and the flags. */
  class CompanyFormState {
    const isOwner: bool
    const companyName: string
    var formData: FormValues
    var snapshot: FormValues
    var isDirty: bool
    var isSaving: bool
    var deleteDialogOpen: bool
    var deleteConfirmName: string
    var isDeleting: bool

    /** Both maps hold every field, and the form is dirty exactly when some field
        differs from the snapshot. */
    predicate Valid()
      reads this
    {
      Complete(formData) && Complete(snapshot) && (isDirty <==> Differs(formData, snapshot))
    }

    predicate DeleteEnabled()
      reads this
    {
      CanConfirmDelete(deleteConfirmName, companyName, isDeleting)
    }

    /** The form as it first renders; the company name is never null. */
    constructor(company: CompanyRow, userRole: string)
      requires Name in company
      ensures isOwner == (userRole == "owner") && companyName == company[Name]
      ensures formData == InitialForm(company) && snapshot == formData && !isDirty
      ensures !isSaving && !deleteDialogOpen && deleteConfirmName == "" && !isDeleting
      ensures Valid()
    {
      isOwner := userRole == "owner";
      companyName := company[Name];
      formData := InitialForm(company);
      snapshot := InitialForm(company);
      isDirty := false;
      isSaving := false;
      deleteDialogOpen := false;
      deleteConfirmName := "";
      isDeleting := false;
    }

    /** The dirty check the effect runs whenever the form changes. */
    method RecomputeDirty()
      modifies this
      requires Complete(formData) && Complete(snapshot)
      ensures Valid()
      ensures formData == old(formData) && snapshot == old(snapshot)
      ensures isSaving == old(isSaving) && deleteDialogOpen == old(deleteDialogOpen)
      ensures deleteConfirmName == old(deleteConfirmName) && isDeleting == old(isDeleting)
    {
      HasChangesIffDiffers(formData, snapshot);
      isDirty := HasChanges(AllFields, formData, snapshot);
    }

    /** handleFieldChange, followed by the dirty check. */
    method HandleFieldChange(field: CompanyField, value: string)
      modifies this
      requires Valid()
      ensures Valid()
      ensures formData == old(formData)[field := value] && snapshot == old(snapshot)
      ensures isSaving == old(isSaving) && deleteDialogOpen == old(deleteDialogOpen)
      ensures deleteConfirmName == old(deleteConfirmName) && isDeleting == old(isDeleting)
    {
      formData := formData[field := value];
      RecomputeDirty();
    }

    /** handleFieldBlur as written: a successful save moves the snapshot but leaves
        the dirty flag as it was. */
    method HandleFieldBlurAsWritten(field: CompanyField, value: string, result: SaveResult)
      returns (sent: Option<FieldUpdate>, toast: Option<Toast>)
      modifies this
      requires Valid()
      ensures !isOwner || value == old(snapshot)[field] ==> sent.None? && toast.None? && unchanged(this)
      ensures isOwner && value != old(snapshot)[field] ==>
        && sent == Some(FieldUpdate(field.Key(), value))
        && snapshot == (if result.Saved? then old(snapshot)[field := value] else old(snapshot))
      ensures formData == old(formData) && isDirty == old(isDirty)
    {
      if !isOwner || value == snapshot[field] {
        return None, None;
      }
      sent := Some(FieldUpdate(field.Key(), value));
      if result.Saved? {
        snapshot := snapshot[field := value];
        toast := Some(SuccessToast("Changes saved"));
      } else {
        toast := Some(ErrorToast(ErrorMessage(result.error, "Failed to save changes")));
      }
    }

    /** handleFieldBlur: owners save a field whose value differs from the snapshot;
        on success only that field of the snapshot changes, and the dirty flag is
        brought up to date. */
    method HandleFieldBlur(field: CompanyField, value: string, result: SaveResult)
      returns (sent: Option<FieldUpdate>, toast: Option<Toast>)
      modifies this
      requires Valid()
      ensures Valid()
      ensures !isOwner || value == old(snapshot)[field] ==> sent.None? && toast.None? && unchanged(this)
      ensures isOwner && value != old(snapshot)[field] ==>
        && sent == Some(FieldUpdate(field.Key(), value))
        && snapshot == (if result.Saved? then old(snapshot)[field := value] else old(snapshot))
        && toast == Some(if result.Saved? then SuccessToast("Changes saved")
                         else ErrorToast(ErrorMessage(result.error, "Failed to save changes")))
      ensures formData == old(formData)
      ensures isSaving == old(isSaving) && deleteDialogOpen == old(deleteDialogOpen)
      ensures deleteConfirmName == old(deleteConfirmName) && isDeleting == old(isDeleting)
    {
      if !isOwner || value == snapshot[field] {
        return None, None;
      }
      sent := Some(FieldUpdate(field.Key(), value));
      if result.Saved? {
        snapshot := snapshot[field := value];
        toast := Some(SuccessToast("Changes saved"));
        RecomputeDirty();
      } else {
        toast := Some(ErrorToast(ErrorMessage(result.error, "Failed to save changes")));
      }
    }

    /** handleSaveAll: owners with unsaved changes send the whole form; on success
        the snapshot becomes the form and nothing is dirty, on failure nothing
        changes. */
    method HandleSaveAll(result: SaveResult) returns (sent: Option<FormValues>, toast: Option<Toast>)
      modifies this
      requires Valid()
      ensures Valid()
      ensures !isOwner || !old(isDirty) ==> sent.None? && toast.None? && unchanged(this)
      ensures isOwner && old(isDirty) ==>
        && sent == Some(old(formData))
        && (result.Saved? ==> snapshot == old(formData) && !isDirty
                              && toast == Some(SuccessToast("All changes saved")))
        && (result.SaveFailed? ==> snapshot == old(snapshot) && isDirty
                                   && toast == Some(ErrorToast(ErrorMessage(result.error, "Failed to save changes"))))
        && !isSaving
      ensures formData == old(formData)
      ensures deleteDialogOpen == old(deleteDialogOpen)
      ensures deleteConfirmName == old(deleteConfirmName) && isDeleting == old(isDeleting)
    {
      if !isOwner || !isDirty {
        return None, None;
      }
      isSaving := true;
      sent := Some(formData);
      isSaving := false;
      if result.Saved? {
        snapshot := formData;
        isDirty := false;
        toast := Some(SuccessToast("All changes saved"));
      } else {
        toast := Some(ErrorToast(ErrorMessage(result.error, "Failed to save changes")));
      }
    }

    /** Opening the danger zone's dialog. */
    method OpenDeleteDialog()
      modifies this
      requires Valid()
      ensures Valid()
      ensures deleteDialogOpen && deleteConfirmName == old(deleteConfirmName)
      ensures formData == old(formData) && snapshot == old(snapshot) && isDirty == old(isDirty)
      ensures isSaving == old(isSaving) && isDeleting == old(isDeleting)
    {
      deleteDialogOpen := true;
    }

    /** Typing into the confirmation field. */
    method SetDeleteConfirmName(typed: string)
      modifies this
      requires Valid()
      ensures Valid()
      ensures deleteConfirmName == typed && deleteDialogOpen == old(deleteDialogOpen)
      ensures formData == old(formData) && snapshot == old(snapshot) && isDirty == old(isDirty)
      ensures isSaving == old(isSaving) && isDeleting == old(isDeleting)
    {
      deleteConfirmName := typed;
    }

    /** Cancel: the dialog closes and the typed name is cleared. */
    method CancelDelete()
      modifies this
      requires Valid()
      ensures Valid()
      ensures companyName != "" ==> !DeleteEnabled()
      ensures !deleteDialogOpen && deleteConfirmName == ""
      ensures formData == old(formData) && snapshot == old(snapshot) && isDirty == old(isDirty)
      ensures isSaving == old(isSaving) && isDeleting == old(isDeleting)
    {
      deleteDialogOpen := false;
      deleteConfirmName := "";
    }

    /** handleDeleteCompany: owners send the typed name; a failure re-enables the
        dialog, a success leaves it busy while the server redirects. */
    method HandleDeleteCompany(result: SaveResult) returns (sent: Option<string>, toast: Option<Toast>)
      modifies this
      requires Valid()
      ensures Valid()
      ensures !isOwner ==> sent.None? && toast.None? && unchanged(this)
      ensures isOwner ==>
        && sent == Some(old(deleteConfirmName))
        && (result.Saved? ==> isDeleting && toast.None?)
        && (result.SaveFailed? ==> !isDeleting
                                   && toast == Some(ErrorToast(ErrorMessage(result.error, "Failed to delete company"))))
      ensures old(DeleteEnabled()) && sent.Some? ==> sent.value == companyName
      ensures formData == old(formData) && snapshot == old(snapshot) && isDirty == old(isDirty)
      ensures isSaving == old(isSaving)
      ensures deleteDialogOpen == old(deleteDialogOpen) && deleteConfirmName == old(deleteConfirmName)
    {
      if !isOwner {
        return None, None;
      }
      isDeleting := true;
      sent := Some(deleteConfirmName);
      toast := None;
      if result.SaveFailed? {
        isDeleting := false;
        toast := Some(ErrorToast(ErrorMessage(result.error, "Failed to delete company")));
      }
    }
  }
}
