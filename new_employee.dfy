/**
 * The employee editing screen of
 * src/app/manage/new-employee/new-employee.component.ts: the same
 * submission flow as the client screen over a nine-control employee form
 * whose phone must read `(AAA) PPP-LLLL`. The store path builder and the
 * two success messages it uses are not defined in src/app/utils/constants.ts;
 * they are parameters of the component here.
 */
module NewEmployee {
  import opened Wrappers
  import opened Text
  import opened Services
  import opened Forms
  import opened Constants
  import PhoneMask

  /** `fieldLabels`: one label for each validated control. */
  const Labels: map<string, string> := map[
    "employeeName" := "Nombre completo", "role" := "Cargo", "mode" := "Modalidad",
    "assignedTo" := "Asignado a", "email" := "Email", "phone" := "Teléfono"]

  /** `initializeForm`: the controls in declaration order, the id freshly generated. */
  function InitialForm(employeeId: string): (r: FormGroup)
    ensures Shape(r) == FormShape
    ensures IdOf(r) == Str(employeeId)
    ensures forall i :: 0 <= i < |r.controls| && Required in r.controls[i].validators ==>
      EmptyInput(r.controls[i].value)
  {
    FormGroup([
      Control("id", {}, Str(employeeId)),
      Control("employeeName", {Required}, Str("")),
      Control("role", {Required}, Str("")),
      Control("mode", {Required}, Str("")),
      Control("assignedTo", {Required}, Str("")),
      Control("email", {Required, Email}, Str("")),
      Control("phone", {Required, GroupedPhone}, Str("")),
      Control("status", {}, Str("Active")),
      Control("addresses", {}, Null)])
  }

  /** The names and validators of the employee form. */
  const FormShape: seq<(string, set<Validator>)> := [
    ("id", {}), ("employeeName", {Required}), ("role", {Required}), ("mode", {Required}),
    ("assignedTo", {Required}), ("email", {Required, Email}), ("phone", {Required, GroupedPhone}),
    ("status", {}), ("addresses", {})]

  const PhoneIndex := 6

  /** The names a form of this shape has, by position. */
  lemma ShapeNames(g: FormGroup)
    requires Shape(g) == FormShape
    ensures |g.controls| == 9
    ensures forall i :: 0 <= i < 9 ==> g.controls[i].name == FormShape[i].0 && g.controls[i].validators == FormShape[i].1
  {
    forall i | 0 <= i < 9
      ensures g.controls[i].name == FormShape[i].0 && g.controls[i].validators == FormShape[i].1
    {
      assert Shape(g)[i] == (g.controls[i].name, g.controls[i].validators);
    }
  }

  /** `fieldLabels[key] || key` for each control of the form. */
  lemma LabelTable()
    ensures LabelOf(Labels, "id") == "id"
    ensures LabelOf(Labels, "employeeName") == "Nombre completo"
    ensures LabelOf(Labels, "role") == "Cargo"
    ensures LabelOf(Labels, "mode") == "Modalidad"
    ensures LabelOf(Labels, "assignedTo") == "Asignado a"
    ensures LabelOf(Labels, "email") == "Email"
    ensures LabelOf(Labels, "phone") == "Teléfono"
    ensures LabelOf(Labels, "status") == "status"
    ensures LabelOf(Labels, "addresses") == "addresses"
  {
  }

  /** The labels of the form's controls, in form order. */
  const FormLabels: seq<string> := ["id", "Nombre completo", "Cargo", "Modalidad", "Asignado a",
                                    "Email", "Teléfono", "status", "addresses"]

  /**
   * Labels of a form of this shape: the six validated controls appear
   * under their Spanish labels, and no two controls share a label.
   */
  lemma ShapeLabels(g: FormGroup)
    requires Shape(g) == FormShape
    ensures |g.controls| == |FormLabels|
    ensures forall i :: 0 <= i < |g.controls| ==> LabelOf(Labels, g.controls[i].name) == FormLabels[i]
    ensures DistinctLabels(Labels, g.controls)
  {
    ShapeNames(g);
    LabelTable();
    assert forall i, j :: 0 <= i < j < 9 ==> FormLabels[i] != FormLabels[j] by {
      assert "Cargo"[0] != "Email"[0];
    }
  }

  /**
   * `id`, `status` and `addresses` carry no validator, so none of them is
   * ever reported.
   */
  lemma UnvalidatedNeverReported(g: FormGroup, emailOk: string -> bool)
    requires Shape(g) == FormShape
    ensures var d := FormErrors(WithFormats, Labels, g.controls, emailOk);
      !HasKey(d, "id") && !HasKey(d, "status") && !HasKey(d, "addresses")
  {
    var cs := g.controls;
    ShapeNames(g);
    ShapeLabels(g);
    UnvalidatedControlHasNoErrors(cs[0], emailOk);
    UnvalidatedControlHasNoErrors(cs[7], emailOk);
    UnvalidatedControlHasNoErrors(cs[8], emailOk);
    assert forall i :: 1 <= i <= 6 ==> FormLabels[i] != "id" && FormLabels[i] != "status" && FormLabels[i] != "addresses";
  }

  /** Each validated control is reported, under its Spanish label, exactly when it has an error. */
  lemma LabelledReported(g: FormGroup, emailOk: string -> bool, i: nat)
    requires Shape(g) == FormShape && 1 <= i <= 6
    ensures HasKey(FormErrors(WithFormats, Labels, g.controls, emailOk), FormLabels[i])
        <==> ErrorsOf(g.controls[i], emailOk).Any()
  {
    ShapeLabels(g);
  }

  /**
   * A non-empty phone that is not `(AAA) PPP-LLLL` is reported under
   * `Teléfono` with the phone-specific pattern message alone.
   */
  lemma BadPhoneMessage(g: FormGroup, emailOk: string -> bool)
    requires Shape(g) == FormShape
    requires g.controls[PhoneIndex].value.Str? && g.controls[PhoneIndex].value.s != ""
    requires !MatchesGroupedPhone(g.controls[PhoneIndex].value.s)
    ensures ErrorsOf(g.controls[PhoneIndex], emailOk).Any()
    ensures EntryFor(WithFormats, Labels, g.controls[PhoneIndex], emailOk) ==
      ("Teléfono", ["El teléfono debe tener el formato (XXX) XXX-XXXX"])
  {
    ShapeNames(g);
    ShapeLabels(g);
    var c := g.controls[PhoneIndex];
    var e := ErrorsOf(c, emailOk);
    assert c.name == "phone";
    assert e == NoErrors.(pattern := true);
    assert Messages(WithFormats, c.name, e) == [PatternMsg(true)];
    assert GetErrorMessages(WithFormats, c.name, e) == [MessageText(PatternMsg(true))];
    assert LabelOf(Labels, c.name) == FormLabels[6];
  }

  // ---- the phone format the mask produces and the one the validator wants ----

  /** No output of the phone mask is accepted by the employee phone validator. */
  lemma MaskOutputNeverGrouped(value: string)
    ensures !MatchesGroupedPhone(PhoneMask.FormatPhone(value))
  {
    var r := PhoneMask.FormatPhone(value);
    if |value| >= 10 {
      assert r[5] == '-';
    } else {
      assert |r| < 14;
    }
  }

  /** Bare digits, which the mask emits after Backspace, are not accepted either. */
  lemma DigitsNeverGrouped(s: string)
    requires AllDigits(s)
    ensures !MatchesGroupedPhone(s)
  {
    if |s| == 14 {
      assert IsDigit(s[0]);
    }
  }

  /**
   * A phone field driven by the mask directive never validates: every value
   * the directive hands to the form is empty (required fails), a mask
   * output or bare digits (the pattern fails).
   */
  lemma MaskedPhoneBlocksSave(g: FormGroup, emailOk: string -> bool, s: string)
    requires Shape(g) == FormShape && g.controls[PhoneIndex].value == Str(s)
    requires PhoneMask.IsMaskOrDigits(s)
    ensures ErrorsOf(g.controls[PhoneIndex], emailOk).Any()
    ensures !IsValid(g, emailOk)
  {
    ShapeNames(g);
    if AllDigits(s) {
      DigitsNeverGrouped(s);
    } else {
      MaskOutputNeverGrouped(Digits(s));
    }
  }

  /** The corrected mask's output for a full number is accepted. */
  lemma GroupedMaskMatches(d: string)
    requires AllDigits(d) && |d| == PhoneMask.MaxDigits
    ensures MatchesGroupedPhone(PhoneMask.FormatPhoneGrouped(d))
  {
    var r := PhoneMask.FormatPhoneGrouped(d);
    assert r == "(" + d[..3] + ") " + d[3..6] + "-" + d[6..10];
    assert r[1..4] == d[..3] && r[6..9] == d[3..6] && r[10..] == d[6..10];
  }

  /**
   * With the corrected mask the phone field is valid exactly when the full
   * ten digits have been entered.
   */
  lemma GroupedPhonePasses(g: FormGroup, emailOk: string -> bool, d: string)
    requires Shape(g) == FormShape && AllDigits(d) && |d| <= PhoneMask.MaxDigits
    requires g.controls[PhoneIndex].value == Str(PhoneMask.FormatPhoneGrouped(d))
    ensures !ErrorsOf(g.controls[PhoneIndex], emailOk).Any() <==> |d| == PhoneMask.MaxDigits
  {
    ShapeNames(g);
    var r := PhoneMask.FormatPhoneGrouped(d);
    if |d| == PhoneMask.MaxDigits {
      GroupedMaskMatches(d);
    } else {
      assert |r| < 14;
    }
  }

  class NewEmployeeComponent {
    /** The acceptance rule of `Validators.email`. */
    const emailOk: string -> bool
    /** `DB_PATHS.EMPLOYEE_BY_ID`, not part of this model's constants. */
    const employeeById: string -> string
    /** `ALERT_MESSAGES.EMPLOYEE_CREATED` and `EMPLOYEE_UPDATED`. */
    const employeeCreated: string
    const employeeUpdated: string
    /** `employeeForm`, meaningful once `formBuilt`. */
    var form: FormGroup
    var formBuilt: bool
    var editingEmployee: bool
    var isSubmitting: bool
    var requests: seq<Request>
    var alerts: seq<Alert>

    /** Once built, the form keeps the employee shape: patching only changes values. */
    ghost predicate Valid()
      reads this
    {
      formBuilt ==> Shape(form) == FormShape
    }

    constructor (emailOk: string -> bool, employeeById: string -> string,
                 employeeCreated: string, employeeUpdated: string)
      ensures Valid() && !formBuilt
      ensures this.emailOk == emailOk && this.employeeById == employeeById
      ensures this.employeeCreated == employeeCreated && this.employeeUpdated == employeeUpdated
      ensures !editingEmployee && !isSubmitting && requests == [] && alerts == []
    {
      this.emailOk := emailOk;
      this.employeeById := employeeById;
      this.employeeCreated := employeeCreated;
      this.employeeUpdated := employeeUpdated;
      form := FormGroup([]);
      formBuilt := false;
      editingEmployee := false;
      isSubmitting := false;
      requests := [];
      alerts := [];
    }

    /** `ngOnInit`: build the form around the freshly generated id, then check for edit mode. */
    method NgOnInit(generatedId: string, routeId: Option<string>)
      modifies this
      ensures Valid() && formBuilt && form == InitialForm(generatedId)
      ensures editingEmployee == (old(editingEmployee) || Truthy(routeId))
      ensures Truthy(routeId) ==> requests == old(requests) + [ObjectAt(employeeById(routeId.value))]
      ensures !Truthy(routeId) ==> requests == old(requests)
      ensures isSubmitting == old(isSubmitting) && alerts == old(alerts)
    {
      form := InitialForm(generatedId);
      formBuilt := true;
      CheckEditMode(routeId);
    }

    /** `checkEditMode`: a truthy route id switches to edit mode and loads that employee. */
    method CheckEditMode(routeId: Option<string>)
      modifies this
      ensures editingEmployee == (old(editingEmployee) || Truthy(routeId))
      ensures Truthy(routeId) ==> requests == old(requests) + [ObjectAt(employeeById(routeId.value))]
      ensures !Truthy(routeId) ==> requests == old(requests)
      ensures form == old(form) && formBuilt == old(formBuilt)
      ensures isSubmitting == old(isSubmitting) && alerts == old(alerts)
    {
      if Truthy(routeId) {
        editingEmployee := true;
        requests := requests + [ObjectAt(employeeById(routeId.value))];
      }
    }

    /** A value from the record subscription: a record patches the form, `null` is ignored. */
    method OnEmployeeLoaded(record: Option<map<string, Value>>)
      requires Valid() && formBuilt
      modifies this
      ensures Valid() && formBuilt
      ensures record.Some? ==> form == Patch(old(form), record.value)
      ensures record.None? ==> form == old(form)
      ensures editingEmployee == old(editingEmployee) && isSubmitting == old(isSubmitting)
      ensures requests == old(requests) && alerts == old(alerts)
    {
      if record.Some? {
        form := Patch(form, record.value);
      }
    }

    /** A failed record subscription. */
    method OnLoadError()
      modifies this
      ensures alerts == old(alerts) + [ErrorAlert(GenericError)]
      ensures form == old(form) && formBuilt == old(formBuilt) && editingEmployee == old(editingEmployee)
      ensures isSubmitting == old(isSubmitting) && requests == old(requests)
    {
      alerts := alerts + [ErrorAlert(GenericError)];
    }

    /** `showFormErrors`: one error alert listing the error map. */
    method ShowFormErrors()
      modifies this
      ensures alerts == old(alerts) + [ErrorAlert(FormErrorAlert(FormErrors(WithFormats, Labels, form.controls, emailOk)))]
      ensures form == old(form) && formBuilt == old(formBuilt) && editingEmployee == old(editingEmployee)
      ensures isSubmitting == old(isSubmitting) && requests == old(requests)
    {
      var errors := GetFormErrors(WithFormats, Labels, form, emailOk);
      alerts := alerts + [ErrorAlert(FormErrorAlert(errors))];
    }

    /**
     * `saveEmployee`: an invalid form gives one error alert and nothing
     * else; a valid one flags the submission and writes the whole form
     * value at the employee path of the form's own id.
     */
    method SaveEmployee()
      requires Valid() && formBuilt
      modifies this
      ensures Valid() && form == old(form) && formBuilt && editingEmployee == old(editingEmployee)
      ensures !IsValid(form, emailOk) ==>
        alerts == old(alerts) + [ErrorAlert(FormErrorAlert(FormErrors(WithFormats, Labels, form.controls, emailOk)))]
        && requests == old(requests) && isSubmitting == old(isSubmitting)
      ensures IsValid(form, emailOk) ==>
        isSubmitting && alerts == old(alerts)
        && requests == old(requests) + [SetAt(employeeById(TemplateText(IdOf(form))), FormValue(form))]
    {
      if !IsValid(form, emailOk) {
        ShowFormErrors();
        return;
      }
      isSubmitting := true;
      var newEmployee := FormValue(form);
      requests := requests + [SetAt(employeeById(TemplateText(IdOf(form))), newEmployee)];
    }

    /** Completion of `saveEmployee`'s write: the message depends on the mode. */
    method OnSaveDone(outcome: Outcome)
      modifies this
      ensures !isSubmitting
      ensures outcome == Succeeded ==>
        alerts == old(alerts) + [SuccessBackAlert(if editingEmployee then employeeUpdated else employeeCreated)]
      ensures outcome == Failed ==> alerts == old(alerts) + [ErrorAlert(GenericError)]
      ensures form == old(form) && formBuilt == old(formBuilt) && editingEmployee == old(editingEmployee)
      ensures requests == old(requests)
    {
      isSubmitting := false;
      if outcome == Succeeded {
        alerts := alerts + [SuccessBackAlert(if editingEmployee then employeeUpdated else employeeCreated)];
      } else {
        alerts := alerts + [ErrorAlert(GenericError)];
      }
    }
  }
}
