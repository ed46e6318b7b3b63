/** The create-case form: its field edits, the validation gate in front of the create
    mutation, and the "complete case" indicator. */
module CreateCase {
  import opened Wrappers
  import opened Constants
  import opened Helpers

  /** `CreateCaseForm`: the form has no title, no `type` and no assignee. */
  datatype CaseForm = CaseForm(
    description: string,
    caseType: Option<string>,
    priority: Option<string>,
    riskScore: Option<int>,
    entity: Option<string>,
    alertId: Option<string>,
    typology: Option<string>)

  const InitialForm := CaseForm("", Some("FRAUD_DETECTION"), Some("MEDIUM"), None, Some(""), Some(""), None)

  /** `handleInputChange(field, value)`: one field and its new value. */
  datatype FieldEdit =
    | EditDescription(description: string)
    | EditCaseType(caseType: Option<string>)
    | EditPriority(priority: Option<string>)
    | EditRiskScore(riskScore: Option<int>)
    | EditEntity(entity: Option<string>)
    | EditAlertId(alertId: Option<string>)
    | EditTypology(typology: Option<string>)

  /** `{ ...prev, [field]: value }`. */
  function ApplyEdit(form: CaseForm, edit: FieldEdit): (r: CaseForm)
    ensures edit.EditDescription? ==> r == form.(description := edit.description)
    ensures edit.EditCaseType? ==> r == form.(caseType := edit.caseType)
    ensures edit.EditPriority? ==> r == form.(priority := edit.priority)
    ensures edit.EditRiskScore? ==> r == form.(riskScore := edit.riskScore)
    ensures edit.EditEntity? ==> r == form.(entity := edit.entity)
    ensures edit.EditAlertId? ==> r == form.(alertId := edit.alertId)
    ensures edit.EditTypology? ==> r == form.(typology := edit.typology)
  {
    match edit
    case EditDescription(v) => form.(description := v)
    case EditCaseType(v) => form.(caseType := v)
    case EditPriority(v) => form.(priority := v)
    case EditRiskScore(v) => form.(riskScore := v)
    case EditEntity(v) => form.(entity := v)
    case EditAlertId(v) => form.(alertId := v)
    case EditTypology(v) => form.(typology := v)
  }

  /** The field names an edit writes, to state that it writes no other. */
  function EditedField(edit: FieldEdit): string {
    match edit
    case EditDescription(_) => "description"
    case EditCaseType(_) => "caseType"
    case EditPriority(_) => "priority"
    case EditRiskScore(_) => "riskScore"
    case EditEntity(_) => "entity"
    case EditAlertId(_) => "alertId"
    case EditTypology(_) => "typology"
  }

  function FieldOf(form: CaseForm, name: string): Option<string> {
    match name
    case "description" => Some(form.description)
    case "caseType" => form.caseType
    case "priority" => form.priority
    case "entity" => form.entity
    case "alertId" => form.alertId
    case "typology" => form.typology
    case _ => None
  }

  /** An edit leaves every other field as it was. */
  lemma EditTouchesOneField(form: CaseForm, edit: FieldEdit, name: string)
    requires name != EditedField(edit)
    ensures FieldOf(ApplyEdit(form, edit), name) == FieldOf(form, name)
    ensures !edit.EditRiskScore? ==> ApplyEdit(form, edit).riskScore == form.riskScore
  {
  }

  /** What `validateCaseData` sees of the form: the fields it reads under names the form
      does not use are absent. */
  function AsCaseData(form: CaseForm): CaseData {
    CaseData(None, None, Some(form.description), form.riskScore, None)
  }

  /** Every form fails validation: it has no title, no `type` and no assignee. */
  lemma EveryFormFails(form: CaseForm)
    ensures var e := ValidationErrors(AsCaseData(form));
      TitleRequired in e && TypeRequired in e && AssigneeRequired in e && |e| >= 3
  {
    ValidationErrorsSpec(AsCaseData(form));
    ValidationErrorsUnrolled(AsCaseData(form));
  }

  /** `isCompleteCase`: type and priority non-empty and a risk score given (0 included). */
  predicate IsCompleteCase(form: CaseForm) {
    form.caseType.Some? && form.caseType.value != "" &&
    form.priority.Some? && form.priority.value != "" &&
    form.riskScore.Some?
  }

  /** The initial form selects a case type that the type table does not contain, and is not
      complete until a risk score is entered. */
  lemma InitialFormFacts()
    ensures InitialForm.caseType.value !in CaseTypes
    ensures !IsCompleteCase(InitialForm)
    ensures IsCompleteCase(InitialForm.(riskScore := Some(0)))
  {
  }

  /** The page's state: the form, the shown errors, and the forms handed to the create
      mutation so far. */
  class CreateCasePage {
    var form: CaseForm
    var errors: seq<string>
    var submitted: seq<CaseForm>

    constructor ()
      ensures form == InitialForm && errors == [] && submitted == []
    {
      form := InitialForm;
      errors := [];
      submitted := [];
    }

    /** Writes the field and clears any shown errors. */
    method HandleInputChange(edit: FieldEdit)
      modifies this
      ensures form == ApplyEdit(old(form), edit)
      ensures errors == []
      ensures submitted == old(submitted)
    {
      form := ApplyEdit(form, edit);
      if |errors| > 0 {
        errors := [];
      }
    }

    /** `handleSubmit`: validates the form as `validateCaseData` reads it. */
    method HandleSubmit()
      modifies this
      ensures var e := ValidationErrors(AsCaseData(old(form)));
        if e != [] then errors == e && submitted == old(submitted)
        else errors == old(errors) && submitted == old(submitted) + [old(form)]
      ensures form == old(form)
    {
      Gate(AsCaseData(form));
    }

    /** Shows the validation errors of `data` and stops, or passes the form to the
        mutation. */
    method Gate(data: CaseData)
      modifies this
      ensures var e := ValidationErrors(data);
        if e != [] then errors == e && submitted == old(submitted)
        else errors == old(errors) && submitted == old(submitted) + [old(form)]
      ensures form == old(form)
    {
      var isValid, validationErrors := ValidateCaseData(data);
      if !isValid {
        errors := validationErrors;
        return;
      }
      submitted := submitted + [form];
    }
  }

  /** Hence the create mutation is never reached from this page. */
  lemma SubmitNeverCreates(form: CaseForm)
    ensures ValidationErrors(AsCaseData(form)) != []
  {
    EveryFormFails(form);
  }
}
