/**
 * The client editing screen of
 * src/app/manage/new-client/new-client.component.ts: a nine-control form,
 * opened empty with a fresh id or filled from the stored record, that is
 * written back whole to `clients/{id}` once it is valid.
 */
module NewClient {
  import opened Wrappers
  import opened Text
  import opened ClientModel
  import opened Services
  import opened Forms
  import opened Constants

  /** `fieldLabels`; `role`, `mode` and `assignedTo` name no control of this form. */
  const Labels: map<string, string> := map[
    "clientName" := "Nombre completo", "role" := "Cargo", "mode" := "Modalidad",
    "assignedTo" := "Asignado a", "email" := "Email", "phone" := "Teléfono"]

  /** `initializeForm`: the controls in declaration order, the id freshly generated. */
  function InitialForm(clientId: string): (r: FormGroup)
    ensures Shape(r) == FormShape
    ensures IdOf(r) == Str(clientId)
    ensures forall i :: 0 <= i < |r.controls| && Required in r.controls[i].validators ==>
      EmptyInput(r.controls[i].value)
  {
    FormGroup([
      Control("id", {}, Str(clientId)),
      Control("clientName", {Required}, Str("")),
      Control("enterpriseName", {Required}, Str("")),
      Control("rnc", {Required}, Str("")),
      Control("email", {Required, Email}, Str("")),
      Control("phone", {Required}, Str("")),
      Control("status", {}, Str("Active")),
      Control("addresses", {}, Null),
      Control("imageUrl", {Required}, Str(""))])
  }

  /** The names and validators of the client form. */
  const FormShape: seq<(string, set<Validator>)> := [
    ("id", {}), ("clientName", {Required}), ("enterpriseName", {Required}),
    ("rnc", {Required}), ("email", {Required, Email}), ("phone", {Required}),
    ("status", {}), ("addresses", {}), ("imageUrl", {Required})]

  /** The names a form of this shape has, by position. */
  lemma ShapeNames(g: FormGroup)
    requires Shape(g) == FormShape
    ensures |g.controls| == 9
    ensures forall i :: 0 <= i < 9 ==> g.controls[i].name == FormShape[i].0 && g.controls[i].validators == FormShape[i].1
  {
    forall i | 0 <= i < 9
      ensures g.controls[i].name == FormShape[i].0 && g.controls[i].validators == FormShape[i].1
    {
      assert Shape(g)[i] == (g.controls[i].name, g.controls[i].validators);
    }
  }

  /** `fieldLabels[key] || key` for each control of the form. */
  lemma LabelTable()
    ensures LabelOf(Labels, "id") == "id"
    ensures LabelOf(Labels, "clientName") == "Nombre completo"
    ensures LabelOf(Labels, "enterpriseName") == "enterpriseName"
    ensures LabelOf(Labels, "rnc") == "rnc"
    ensures LabelOf(Labels, "email") == "Email"
    ensures LabelOf(Labels, "phone") == "Teléfono"
    ensures LabelOf(Labels, "status") == "status"
    ensures LabelOf(Labels, "addresses") == "addresses"
    ensures LabelOf(Labels, "imageUrl") == "imageUrl"
  {
  }

  /** The labels of the form's controls, in form order. */
  const FormLabels: seq<string> := ["id", "Nombre completo", "enterpriseName", "rnc", "Email",
                                    "Teléfono", "status", "addresses", "imageUrl"]

  /**
   * Labels of a form of this shape: the three labelled controls use their
   * Spanish label, every other control (among them `enterpriseName`, `rnc`
   * and `imageUrl`) its raw name, and no two controls share a label. None
   * of the controls is `role`, `mode` or `assignedTo`.
   */
  lemma ShapeLabels(g: FormGroup)
    requires Shape(g) == FormShape
    ensures |g.controls| == |FormLabels|
    ensures forall i :: 0 <= i < |g.controls| ==> LabelOf(Labels, g.controls[i].name) == FormLabels[i]
    ensures DistinctLabels(Labels, g.controls)
    ensures forall i :: 0 <= i < |g.controls| ==> g.controls[i].name !in {"role", "mode", "assignedTo"}
  {
    ShapeNames(g);
    LabelTable();
    assert forall i, j :: 0 <= i < j < 9 ==> FormLabels[i] != FormLabels[j] by {
      assert "Teléfono"[0] != "imageUrl"[0];
    }
  }

  /** What each control of a fresh form reports: `required` on the six empty required fields. */
  lemma FreshControlErrors(clientId: string, emailOk: string -> bool)
    ensures var cs := InitialForm(clientId).controls;
      && !ErrorsOf(cs[0], emailOk).Any() && !ErrorsOf(cs[6], emailOk).Any() && !ErrorsOf(cs[7], emailOk).Any()
      && forall i :: 0 <= i < 9 && i != 0 && i != 6 && i != 7 ==> ErrorsOf(cs[i], emailOk) == NoErrors.(required := true)
  {
  }

  /**
   * Saving a freshly opened form names the unlabelled required fields by
   * their raw control names, e.g. `<strong>enterpriseName:</strong> Este
   * campo es requerido`.
   */
  lemma FreshFormShowsRawNames(clientId: string, emailOk: string -> bool)
    ensures var alert := FormErrorAlert(FormErrors(WithFormats, Labels, InitialForm(clientId).controls, emailOk));
      && Includes(alert, "<strong>" + "enterpriseName" + ":</strong> " + "Este campo es requerido")
      && Includes(alert, "<strong>" + "rnc" + ":</strong> " + "Este campo es requerido")
      && Includes(alert, "<strong>" + "imageUrl" + ":</strong> " + "Este campo es requerido")
  {
    var g := InitialForm(clientId);
    var cs := g.controls;
    ShapeLabels(g);
    FreshControlErrors(clientId, emailOk);
    var req := ["Este campo es requerido"];
    RequiredOnlyMessages(WithFormats, "enterpriseName");
    RequiredOnlyMessages(WithFormats, "rnc");
    RequiredOnlyMessages(WithFormats, "imageUrl");
    AlertShowsEntry(WithFormats, Labels, cs, emailOk, 2, "enterpriseName", req);
    AlertShowsEntry(WithFormats, Labels, cs, emailOk, 3, "rnc", req);
    AlertShowsEntry(WithFormats, Labels, cs, emailOk, 8, "imageUrl", req);
  }

  /** A freshly opened form cannot be saved. */
  lemma FreshFormIsInvalid(clientId: string, emailOk: string -> bool)
    ensures !IsValid(InitialForm(clientId), emailOk)
  {
    FreshControlErrors(clientId, emailOk);
    assert ErrorsOf(InitialForm(clientId).controls[1], emailOk).Any();
  }

  /**
   * An empty email field always shows up in the alert as
   * `<strong>Email:</strong> Este campo es requerido`, and nothing else is
   * said about that field.
   */
  lemma EmptyEmailIsReported(g: FormGroup, emailOk: string -> bool)
    requires Shape(g) == FormShape && EmptyInput(g.controls[4].value)
    ensures EntryFor(WithFormats, Labels, g.controls[4], emailOk) == ("Email", ["Este campo es requerido"])
    ensures Includes(FormErrorAlert(FormErrors(WithFormats, Labels, g.controls, emailOk)),
                     "<strong>" + "Email" + ":</strong> " + "Este campo es requerido")
  {
    ShapeLabels(g);
    var c := g.controls[4];
    assert c.name == "email" && c.validators == {Required, Email} by {
      ShapeNames(g);
    }
    EmptyControlIsOnlyRequired(c, emailOk);
    RequiredOnlyMessages(WithFormats, c.name);
    var entry := EntryFor(WithFormats, Labels, c, emailOk);
    assert entry.0 == "Email";
    assert entry.1 == ["Este campo es requerido"];
    AlertShowsEntry(WithFormats, Labels, g.controls, emailOk, 4, "Email", ["Este campo es requerido"]);
  }

  class NewClientComponent {
    /** The acceptance rule of `Validators.email`. */
    const emailOk: string -> bool
    /** `clientForm`, meaningful once `formBuilt`. */
    var form: FormGroup
    var formBuilt: bool
    var editingClient: bool
    var isSubmitting: bool
    var requests: seq<Request>
    var alerts: seq<Alert>

    /** Once built, the form keeps the client shape: patching only changes values. */
    ghost predicate Valid()
      reads this
    {
      formBuilt ==> Shape(form) == FormShape
    }

    constructor (emailOk: string -> bool)
      ensures Valid() && this.emailOk == emailOk && !formBuilt
      ensures !editingClient && !isSubmitting && requests == [] && alerts == []
    {
      this.emailOk := emailOk;
      form := FormGroup([]);
      formBuilt := false;
      editingClient := false;
      isSubmitting := false;
      requests := [];
      alerts := [];
    }

    /**
     * `ngOnInit`: build the form around the freshly generated id, then
     * check the route for edit mode.
     */
    method NgOnInit(generatedId: string, routeId: Option<string>)
      modifies this
      ensures Valid() && formBuilt && form == InitialForm(generatedId)
      ensures editingClient == (old(editingClient) || Truthy(routeId))
      ensures Truthy(routeId) ==> requests == old(requests) + [ObjectAt(ClientById(routeId.value))]
      ensures !Truthy(routeId) ==> requests == old(requests)
      ensures isSubmitting == old(isSubmitting) && alerts == old(alerts)
    {
      form := InitialForm(generatedId);
      formBuilt := true;
      CheckEditMode(routeId);
    }

    /** `checkEditMode`: a truthy route id switches to edit mode and loads that client. */
    method CheckEditMode(routeId: Option<string>)
      modifies this
      ensures editingClient == (old(editingClient) || Truthy(routeId))
      ensures Truthy(routeId) ==> requests == old(requests) + [ObjectAt(ClientById(routeId.value))]
      ensures !Truthy(routeId) ==> requests == old(requests)
      ensures form == old(form) && formBuilt == old(formBuilt)
      ensures isSubmitting == old(isSubmitting) && alerts == old(alerts)
    {
      if Truthy(routeId) {
        editingClient := true;
        requests := requests + [ObjectAt(ClientById(routeId.value))];
      }
    }

    /** A value from the record subscription: a record patches the form, `null` is ignored. */
    method OnClientLoaded(record: Option<map<string, Value>>)
      requires Valid() && formBuilt
      modifies this
      ensures Valid() && formBuilt
      ensures record.Some? ==> form == Patch(old(form), record.value)
      ensures record.None? ==> form == old(form)
      ensures editingClient == old(editingClient) && isSubmitting == old(isSubmitting)
      ensures requests == old(requests) && alerts == old(alerts)
    {
      if record.Some? {
        form := Patch(form, record.value);
      }
    }

    /** A failed record subscription. */
    method OnLoadError()
      modifies this
      ensures alerts == old(alerts) + [ErrorAlert(GenericError)]
      ensures form == old(form) && formBuilt == old(formBuilt) && editingClient == old(editingClient)
      ensures isSubmitting == old(isSubmitting) && requests == old(requests)
    {
      alerts := alerts + [ErrorAlert(GenericError)];
    }

    /** `showFormErrors`: one error alert listing the error map. */
    method ShowFormErrors()
      modifies this
      ensures alerts == old(alerts) + [ErrorAlert(FormErrorAlert(FormErrors(WithFormats, Labels, form.controls, emailOk)))]
      ensures form == old(form) && formBuilt == old(formBuilt) && editingClient == old(editingClient)
      ensures isSubmitting == old(isSubmitting) && requests == old(requests)
    {
      var errors := GetFormErrors(WithFormats, Labels, form, emailOk);
      alerts := alerts + [ErrorAlert(FormErrorAlert(errors))];
    }

    /**
     * `saveClient`: an invalid form gives one error alert and nothing else;
     * a valid one flags the submission and writes the whole form value at
     * `clients/{id}`, the id taken from the form, not from the route.
     */
    method SaveClient()
      requires Valid() && formBuilt
      modifies this
      ensures Valid() && form == old(form) && formBuilt && editingClient == old(editingClient)
      ensures !IsValid(form, emailOk) ==>
        alerts == old(alerts) + [ErrorAlert(FormErrorAlert(FormErrors(WithFormats, Labels, form.controls, emailOk)))]
        && requests == old(requests) && isSubmitting == old(isSubmitting)
      ensures IsValid(form, emailOk) ==>
        isSubmitting && alerts == old(alerts)
        && requests == old(requests) + [SetAt(ClientById(TemplateText(IdOf(form))), FormValue(form))]
    {
      if !IsValid(form, emailOk) {
        ShowFormErrors();
        return;
      }
      isSubmitting := true;
      var newClient := FormValue(form);
      requests := requests + [SetAt(ClientById(TemplateText(IdOf(form))), newClient)];
    }

    /** Completion of `saveClient`'s write: the message depends on the mode. */
    method OnSaveDone(outcome: Outcome)
      modifies this
      ensures !isSubmitting
      ensures outcome == Succeeded ==>
        alerts == old(alerts) + [SuccessBackAlert(if editingClient then ClientUpdated else ClientCreated)]
      ensures outcome == Failed ==> alerts == old(alerts) + [ErrorAlert(GenericError)]
      ensures form == old(form) && formBuilt == old(formBuilt) && editingClient == old(editingClient)
      ensures requests == old(requests)
    {
      isSubmitting := false;
      if outcome == Succeeded {
        alerts := alerts + [SuccessBackAlert(if editingClient then ClientUpdated else ClientCreated)];
      } else {
        alerts := alerts + [ErrorAlert(GenericError)];
      }
    }
  }
}
