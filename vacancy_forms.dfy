/** The two vacancy forms: the applyflow add form and the edit modal. Both
    check the three required fields after trimming and then hand the link to
    the URL parser, which is a parameter here (`parses`). The outcome of the
    `onSubmit`/`onSave` callback is an input. */
module VacancyForms {
  import opened Base

  const RequiredMessage: string := "Please fill in all required fields"
  const InvalidUrlMessage: string := "Please enter a valid URL"

  /** The form state; `source` is kept as given, the other fields are text. */
  datatype VacancyForm = VacancyForm(
    companyName: string, roleTitle: string, link: string, source: Option<string>,
    salaryRange: string, location: string, notes: string)

  /** A record whose fields may be absent: `initialData`, the vacancy the
      edit modal receives, and the edit modal's own `Partial<VacancyForm>`. */
  datatype PartialForm = PartialForm(
    companyName: Option<string>, roleTitle: Option<string>, link: Option<string>, source: Option<string>,
    salaryRange: Option<string>, location: Option<string>, notes: Option<string>)

  const EmptyPartial: PartialForm := PartialForm(None, None, None, None, None, None, None)

  /** What a callback did: resolved, threw an `Error` with a message, or threw
      something else. */
  datatype Outcome = Resolved | Threw(message: string) | ThrewOther

  /** Each text field `x || ''`; the source as given. */
  function WithDefaults(p: PartialForm): (f: VacancyForm)
    ensures f.companyName == OrElse(p.companyName, "") && f.roleTitle == OrElse(p.roleTitle, "")
    ensures f.link == OrElse(p.link, "") && f.source == p.source
    ensures f.salaryRange == OrElse(p.salaryRange, "") && f.location == OrElse(p.location, "")
    ensures f.notes == OrElse(p.notes, "")
  {
    VacancyForm(OrElse(p.companyName, ""), OrElse(p.roleTitle, ""), OrElse(p.link, ""), p.source,
                OrElse(p.salaryRange, ""), OrElse(p.location, ""), OrElse(p.notes, ""))
  }

  /** A form with every text field present. */
  function ToPartial(f: VacancyForm): (p: PartialForm)
    ensures p.companyName == Some(f.companyName) && p.roleTitle == Some(f.roleTitle) && p.link == Some(f.link)
    ensures p.source == f.source && p.salaryRange == Some(f.salaryRange)
    ensures p.location == Some(f.location) && p.notes == Some(f.notes)
  {
    PartialForm(Some(f.companyName), Some(f.roleTitle), Some(f.link), f.source,
                Some(f.salaryRange), Some(f.location), Some(f.notes))
  }

  /** Filling in the defaults of a full form changes nothing. */
  lemma DefaultsOfFull(f: VacancyForm)
    ensures WithDefaults(ToPartial(f)) == f
  {
  }

  /** `!x?.trim()`: absent, or empty after trimming. */
  predicate Blank(x: Option<string>) {
    x.None? || IsBlank(x.value)
  }

  /** The validation both forms run: the required-field message when any of
      company, role or link is blank, else the URL message when the link does
      not parse, else nothing. */
  function Validate(companyName: Option<string>, roleTitle: Option<string>, link: Option<string>,
                    parses: string -> bool): (r: Option<string>)
    ensures r == Some(RequiredMessage) <==> Blank(companyName) || Blank(roleTitle) || Blank(link)
    ensures r == Some(InvalidUrlMessage) <==> !Blank(companyName) && !Blank(roleTitle) && !Blank(link) && !parses(link.value)
    ensures r.None? <==> !Blank(companyName) && !Blank(roleTitle) && !Blank(link) && parses(link.value)
  {
    if Blank(companyName) || Blank(roleTitle) || Blank(link) then Some(RequiredMessage)
    else if !parses(link.value) then Some(InvalidUrlMessage)
    else None
  }

  /** Blank fields are reported first: a link that would not parse does not
      matter while a required field is blank. */
  lemma RequiredBeforeUrl(c: Option<string>, r: Option<string>, l: Option<string>, parses: string -> bool)
    requires Blank(c) || Blank(r) || Blank(l)
    ensures Validate(c, r, l, parses) == Some(RequiredMessage)
  {
  }

  /** An emptied edit form never passes. */
  lemma EmptyFormRejected(parses: string -> bool)
    ensures Validate(EmptyPartial.companyName, EmptyPartial.roleTitle, EmptyPartial.link, parses) == Some(RequiredMessage)
  {
  }

  /** The error an `Outcome` leaves behind, with `fallback` for a thrown
      non-Error. */
  function OutcomeError(o: Outcome, fallback: string): (r: string)
    ensures o.Resolved? ==> r == ""
    ensures o.Threw? ==> r == o.message
    ensures o.ThrewOther? ==> r == fallback
  {
    match o
    case Resolved => ""
    case Threw(m) => m
    case ThrewOther => fallback
  }

  /** The fields `handleInputChange` can set. */
  datatype Field = CompanyName | RoleTitle | Link | Source | SalaryRange | Location | Notes

  /** The value a field holds, the source as `None` when unset. */
  function Get(f: VacancyForm, field: Field): Option<string> {
    match field
    case CompanyName => Some(f.companyName)
    case RoleTitle => Some(f.roleTitle)
    case Link => Some(f.link)
    case Source => f.source
    case SalaryRange => Some(f.salaryRange)
    case Location => Some(f.location)
    case Notes => Some(f.notes)
  }

  /** `{ ...prev, [field]: value }`. */
  function SetField(f: VacancyForm, field: Field, value: string): (r: VacancyForm)
    ensures Get(r, field) == Some(value)
    ensures forall other :: other != field ==> Get(r, other) == Get(f, other)
  {
    match field
    case CompanyName => f.(companyName := value)
    case RoleTitle => f.(roleTitle := value)
    case Link => f.(link := value)
    case Source => f.(source := Some(value))
    case SalaryRange => f.(salaryRange := value)
    case Location => f.(location := value)
    case Notes => f.(notes := value)
  }

  /** The applyflow add-vacancy form; `submitted` records the `onSubmit` calls. */
  class AddVacancyForm {
    var formData: VacancyForm
    var isSubmitting: bool
    var error: string
    var submitted: seq<VacancyForm>

    constructor (initialData: PartialForm)
      ensures formData == WithDefaults(initialData)
      ensures !isSubmitting && error == "" && submitted == []
    {
      formData := WithDefaults(initialData);
      isSubmitting := false;
      error := "";
      submitted := [];
    }

    /** `handleSubmit`: a failed validation sets its message and calls
        nothing; a passing form goes to `onSubmit` exactly as typed; the
        error is what the callback left; submitting ends either way. */
    method HandleSubmit(parses: string -> bool, outcome: Outcome)
      modifies this`isSubmitting, this`error, this`submitted
      ensures !isSubmitting
      ensures var v := Validate(Some(formData.companyName), Some(formData.roleTitle), Some(formData.link), parses);
        && (v.Some? ==> error == v.value && submitted == old(submitted))
        && (v.None? ==> submitted == old(submitted) + [formData] && error == OutcomeError(outcome, "An error occurred"))
    {
      error := "";
      isSubmitting := true;
      var v := Validate(Some(formData.companyName), Some(formData.roleTitle), Some(formData.link), parses);
      if v.Some? {
        error := v.value;
      } else {
        submitted := submitted + [formData];
        error := OutcomeError(outcome, "An error occurred");
      }
      isSubmitting := false;
    }

    /** `handleInputChange`: exactly one field takes the new value. */
    method HandleInputChange(field: Field, value: string)
      modifies this`formData
      ensures formData == SetField(old(formData), field, value)
    {
      formData := SetField(formData, field, value);
    }
  }

  /** A vacancy as the edit modal receives it. */
  datatype Vacancy = Vacancy(id: string, fields: PartialForm)

  /** The edit-vacancy modal; `saves` records the `onSave` calls and
      `closes` counts the `onClose` calls. */
  class EditVacancyModal {
    var formData: PartialForm
    var isSubmitting: bool
    var error: string
    var saves: seq<(string, PartialForm)>
    var closes: nat

    constructor ()
      ensures formData == EmptyPartial && !isSubmitting && error == "" && saves == [] && closes == 0
    {
      formData := EmptyPartial;
      isSubmitting := false;
      error := "";
      saves := [];
      closes := 0;
    }

    /** The effect on `[vacancy, isOpen]`: an open modal with a vacancy loads
        its fields with the text defaults. */
    method Load(vacancy: Option<Vacancy>, isOpen: bool)
      modifies this`formData
      ensures vacancy.Some? && isOpen ==> formData == ToPartial(WithDefaults(vacancy.value.fields))
      ensures !(vacancy.Some? && isOpen) ==> formData == old(formData)
    {
      if vacancy.Some? && isOpen {
        formData := ToPartial(WithDefaults(vacancy.value.fields));
      }
    }

    /** `handleSubmit`: without a vacancy nothing happens; otherwise a failed
        validation sets its message; a passing form is saved under the
        vacancy's id and the modal closes unless saving threw, in which case
        the error is shown and the modal stays; submitting ends either way. */
    method HandleSubmit(vacancy: Option<Vacancy>, parses: string -> bool, outcome: Outcome)
      modifies this`isSubmitting, this`error, this`saves, this`closes
      ensures vacancy.None? ==> isSubmitting == old(isSubmitting) && error == old(error)
                                && saves == old(saves) && closes == old(closes)
      ensures vacancy.Some? ==>
        var v := Validate(formData.companyName, formData.roleTitle, formData.link, parses);
        && !isSubmitting
        && (v.Some? ==> error == v.value && saves == old(saves) && closes == old(closes))
        && (v.None? ==> saves == old(saves) + [(vacancy.value.id, formData)]
                        && error == OutcomeError(outcome, "Failed to update vacancy")
                        && (outcome.Resolved? ==> closes == old(closes) + 1)
                        && (!outcome.Resolved? ==> closes == old(closes)))
    {
      if vacancy.None? {
        return;
      }
      error := "";
      isSubmitting := true;
      var v := Validate(formData.companyName, formData.roleTitle, formData.link, parses);
      if v.Some? {
        error := v.value;
      } else {
        saves := saves + [(vacancy.value.id, formData)];
        if outcome.Resolved? {
          closes := closes + 1;
        } else {
          error := OutcomeError(outcome, "Failed to update vacancy");
        }
      }
      isSubmitting := false;
    }

    /** `handleClose`: clear the error and the form, then close. */
    method HandleClose()
      modifies this`error, this`formData, this`closes
      ensures error == "" && formData == EmptyPartial && closes == old(closes) + 1
    {
      error := "";
      formData := EmptyPartial;
      closes := closes + 1;
    }
  }

  /** A loaded vacancy passes the required check exactly when its company,
      role and link are not blank. */
  lemma LoadedRequired(v: Vacancy, parses: string -> bool)
    ensures var f := ToPartial(WithDefaults(v.fields));
      Validate(f.companyName, f.roleTitle, f.link, parses) == Some(RequiredMessage)
      <==> Blank(v.fields.companyName) || Blank(v.fields.roleTitle) || Blank(v.fields.link)
  {
    BlankOrElse(v.fields.companyName);
    BlankOrElse(v.fields.roleTitle);
    BlankOrElse(v.fields.link);
  }

  /** Defaulting an absent field to '' does not change whether it is blank. */
  lemma BlankOrElse(x: Option<string>)
    ensures Blank(Some(OrElse(x, ""))) <==> Blank(x)
  {
    assert Trim("") == "";
  }
}
