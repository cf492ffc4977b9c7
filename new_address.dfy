/**
 * The address editing screen of
 * src/app/manage/new-address/new-address.component.ts: a seven-control
 * form for one address of one client, opened only when the route names
 * the client, written to `clients/{clientID}/addresses/{id}`.
 */
module NewAddress {
  import opened Wrappers
  import opened Text
  import opened Services
  import opened Forms
  import opened Constants

  /** `fieldLabels`: every control but `id` has one. */
  const Labels: map<string, string> := map[
    "street" := "Calle", "number" := "Número", "paraje" := "Paraje",
    "pueblo" := "Pueblo", "province" := "Provincia", "type" := "Tipo de dirección"]

  /** The address form has no email control, so the email rule is never consulted. */
  const NoEmailRule: string -> bool := _ => true

  /** The alert raised when the route names no client. */
  const MissingClientMessage := "ID de cliente no válido"

  /**
   * `generateAddressId`: the decimal text of the current time in
   * milliseconds, taken as a parameter: a non-empty string of digits, so
   * it never contains a path separator.
   */
  function GenerateAddressId(now: nat): (r: string)
    ensures |r| > 0 && AllDigits(r)
    ensures forall i :: 0 <= i < |r| ==> r[i] != '/'
  {
    NatText(now)
  }

  /** `initializeForm`: the controls in declaration order. */
  function InitialForm(addressId: string): (r: FormGroup)
    ensures Shape(r) == FormShape
    ensures IdOf(r) == Str(addressId)
    ensures forall i :: 0 <= i < |r.controls| && Required in r.controls[i].validators ==>
      EmptyInput(r.controls[i].value)
  {
    FormGroup([
      Control("id", {}, Str(addressId)),
      Control("street", {Required}, Str("")),
      Control("number", {Required}, Str("")),
      Control("paraje", {Required}, Str("")),
      Control("pueblo", {Required}, Str("")),
      Control("province", {Required}, Str("")),
      Control("type", {Required}, Str(""))])
  }

  /** The names and validators of the address form. */
  const FormShape: seq<(string, set<Validator>)> := [
    ("id", {}), ("street", {Required}), ("number", {Required}), ("paraje", {Required}),
    ("pueblo", {Required}), ("province", {Required}), ("type", {Required})]

  /** The names a form of this shape has, by position. */
  lemma ShapeNames(g: FormGroup)
    requires Shape(g) == FormShape
    ensures |g.controls| == 7
    ensures forall i :: 0 <= i < 7 ==> g.controls[i].name == FormShape[i].0 && g.controls[i].validators == FormShape[i].1
  {
    forall i | 0 <= i < 7
      ensures g.controls[i].name == FormShape[i].0 && g.controls[i].validators == FormShape[i].1
    {
      assert Shape(g)[i] == (g.controls[i].name, g.controls[i].validators);
    }
  }

  /** `fieldLabels[key] || key` for each control of the form. */
  lemma LabelTable()
    ensures LabelOf(Labels, "id") == "id"
    ensures LabelOf(Labels, "street") == "Calle"
    ensures LabelOf(Labels, "number") == "Número"
    ensures LabelOf(Labels, "paraje") == "Paraje"
    ensures LabelOf(Labels, "pueblo") == "Pueblo"
    ensures LabelOf(Labels, "province") == "Provincia"
    ensures LabelOf(Labels, "type") == "Tipo de dirección"
  {
  }

  /** The labels of the form's controls, in form order. */
  const FormLabels: seq<string> := ["id", "Calle", "Número", "Paraje", "Pueblo", "Provincia", "Tipo de dirección"]

  /** Every control but `id` has its own label, and no two controls share one. */
  lemma ShapeLabels(g: FormGroup)
    requires Shape(g) == FormShape
    ensures |g.controls| == |FormLabels|
    ensures forall i :: 0 <= i < |g.controls| ==> LabelOf(Labels, g.controls[i].name) == FormLabels[i]
    ensures forall i :: 1 <= i < |g.controls| ==> LabelOf(Labels, g.controls[i].name) != g.controls[i].name
    ensures DistinctLabels(Labels, g.controls)
  {
    ShapeNames(g);
    LabelTable();
    assert forall i, j :: 0 <= i < j < 7 ==> FormLabels[i] != FormLabels[j] by {
      assert "Paraje"[1] != "Pueblo"[1];
    }
    assert forall i :: 1 <= i < 7 ==> FormLabels[i] != FormShape[i].0 by {
      assert "Paraje"[0] != "paraje"[0] && "Pueblo"[0] != "pueblo"[0];
    }
  }

  /**
   * Every field but `id` is required: the form is valid exactly when none
   * of the six is empty.
   */
  lemma ValidIffAllFilled(g: FormGroup)
    requires Shape(g) == FormShape
    ensures IsValid(g, NoEmailRule) <==> forall i :: 1 <= i < 7 ==> !EmptyInput(g.controls[i].value)
  {
    ShapeNames(g);
    UnvalidatedControlHasNoErrors(g.controls[0], NoEmailRule);
  }

  /**
   * An empty field is reported under its label with the "required" message
   * alone; the address table never produces an email or pattern message.
   */
  lemma EmptyFieldReported(g: FormGroup, i: nat)
    requires Shape(g) == FormShape && 1 <= i < 7 && EmptyInput(g.controls[i].value)
    ensures EntryFor(LengthsOnly, Labels, g.controls[i], NoEmailRule) in FormErrors(LengthsOnly, Labels, g.controls, NoEmailRule)
    ensures EntryFor(LengthsOnly, Labels, g.controls[i], NoEmailRule) == (FormLabels[i], ["Este campo es requerido"])
  {
    ShapeNames(g);
    ShapeLabels(g);
    EmptyControlIsOnlyRequired(g.controls[i], NoEmailRule);
    RequiredOnlyMessages(LengthsOnly, g.controls[i].name);
    EntryOfErroringControl(LengthsOnly, Labels, g.controls, NoEmailRule, i);
  }

  class NewAddressComponent {
    /** `addressForm`, built only once a client id is known. */
    var form: FormGroup
    var formBuilt: bool
    var clientID: string
    var editingAddress: bool
    var isSubmitting: bool
    var requests: seq<Request>
    var alerts: seq<Alert>

    /** Once built, the form keeps the address shape: patching only changes values. */
    ghost predicate Valid()
      reads this
    {
      formBuilt ==> Shape(form) == FormShape
    }

    constructor ()
      ensures Valid() && !formBuilt && clientID == ""
      ensures !editingAddress && !isSubmitting && requests == [] && alerts == []
    {
      form := FormGroup([]);
      formBuilt := false;
      clientID := "";
      editingAddress := false;
      isSubmitting := false;
      requests := [];
      alerts := [];
    }

    /**
     * `ngOnInit`: without a client id in the route, one error alert and no
     * form; otherwise build the form with an id from the clock `now` and
     * check for edit mode.
     */
    method NgOnInit(routeClientId: Option<string>, routeId: Option<string>, now: nat)
      requires Valid()
      modifies this
      ensures Valid() && clientID == ParamOrEmpty(routeClientId)
      ensures isSubmitting == old(isSubmitting)
      ensures clientID == "" ==>
        alerts == old(alerts) + [ErrorAlert(MissingClientMessage)]
        && formBuilt == old(formBuilt) && form == old(form)
        && editingAddress == old(editingAddress) && requests == old(requests)
      ensures clientID != "" ==>
        formBuilt && form == InitialForm(GenerateAddressId(now)) && alerts == old(alerts)
        && editingAddress == (old(editingAddress) || Truthy(routeId))
        && (Truthy(routeId) ==> requests == old(requests) + [ObjectAt(ClientAddress(clientID, routeId.value))])
        && (!Truthy(routeId) ==> requests == old(requests))
    {
      clientID := ParamOrEmpty(routeClientId);
      if clientID == "" {
        alerts := alerts + [ErrorAlert(MissingClientMessage)];
        return;
      }
      form := InitialForm(GenerateAddressId(now));
      formBuilt := true;
      CheckEditMode(routeId);
    }

    /** `checkEditMode`: a truthy route id switches to edit mode and loads that address. */
    method CheckEditMode(routeId: Option<string>)
      modifies this
      ensures editingAddress == (old(editingAddress) || Truthy(routeId))
      ensures Truthy(routeId) ==> requests == old(requests) + [ObjectAt(ClientAddress(clientID, routeId.value))]
      ensures !Truthy(routeId) ==> requests == old(requests)
      ensures form == old(form) && formBuilt == old(formBuilt) && clientID == old(clientID)
      ensures isSubmitting == old(isSubmitting) && alerts == old(alerts)
    {
      if Truthy(routeId) {
        editingAddress := true;
        requests := requests + [ObjectAt(ClientAddress(clientID, routeId.value))];
      }
    }

    /** A value from the record subscription: a record patches the form, `null` is ignored. */
    method OnAddressLoaded(record: Option<map<string, Value>>)
      requires Valid() && formBuilt
      modifies this
      ensures Valid() && formBuilt && clientID == old(clientID)
      ensures record.Some? ==> form == Patch(old(form), record.value)
      ensures record.None? ==> form == old(form)
      ensures editingAddress == old(editingAddress) && isSubmitting == old(isSubmitting)
      ensures requests == old(requests) && alerts == old(alerts)
    {
      if record.Some? {
        form := Patch(form, record.value);
      }
    }

    /** A failed record subscription. */
    method OnLoadError()
      modifies this
      ensures alerts == old(alerts) + [ErrorAlert(GenericError)]
      ensures form == old(form) && formBuilt == old(formBuilt) && clientID == old(clientID)
      ensures editingAddress == old(editingAddress) && isSubmitting == old(isSubmitting) && requests == old(requests)
    {
      alerts := alerts + [ErrorAlert(GenericError)];
    }

    /** `showFormErrors`: one error alert listing the error map. */
    method ShowFormErrors()
      modifies this
      ensures alerts == old(alerts) + [ErrorAlert(FormErrorAlert(FormErrors(LengthsOnly, Labels, form.controls, NoEmailRule)))]
      ensures form == old(form) && formBuilt == old(formBuilt) && clientID == old(clientID)
      ensures editingAddress == old(editingAddress) && isSubmitting == old(isSubmitting) && requests == old(requests)
    {
      var errors := GetFormErrors(LengthsOnly, Labels, form, NoEmailRule);
      alerts := alerts + [ErrorAlert(FormErrorAlert(errors))];
    }

    /**
     * `saveAddress`: an invalid form gives one error alert and no write; a
     * valid one flags the submission and writes the whole form value under
     * the route's client at the form's own id.
     */
    method SaveAddress()
      requires Valid() && formBuilt
      modifies this
      ensures Valid() && form == old(form) && formBuilt && clientID == old(clientID)
      ensures editingAddress == old(editingAddress)
      ensures !IsValid(form, NoEmailRule) ==>
        alerts == old(alerts) + [ErrorAlert(FormErrorAlert(FormErrors(LengthsOnly, Labels, form.controls, NoEmailRule)))]
        && requests == old(requests) && isSubmitting == old(isSubmitting)
      ensures IsValid(form, NoEmailRule) ==>
        isSubmitting && alerts == old(alerts)
        && requests == old(requests) + [SetAt(ClientAddress(clientID, TemplateText(IdOf(form))), FormValue(form))]
    {
      if !IsValid(form, NoEmailRule) {
        ShowFormErrors();
        return;
      }
      isSubmitting := true;
      var newAddress := FormValue(form);
      requests := requests + [SetAt(ClientAddress(clientID, TemplateText(IdOf(form))), newAddress)];
    }

    /** Completion of `saveAddress`'s write: the message depends on the mode. */
    method OnSaveDone(outcome: Outcome)
      modifies this
      ensures !isSubmitting
      ensures outcome == Succeeded ==>
        alerts == old(alerts) + [SuccessBackAlert(if editingAddress then AddressUpdated else AddressCreated)]
      ensures outcome == Failed ==> alerts == old(alerts) + [ErrorAlert(GenericError)]
      ensures form == old(form) && formBuilt == old(formBuilt) && clientID == old(clientID)
      ensures editingAddress == old(editingAddress) && requests == old(requests)
    {
      isSubmitting := false;
      if outcome == Succeeded {
        alerts := alerts + [SuccessBackAlert(if editingAddress then AddressUpdated else AddressCreated)];
      } else {
        alerts := alerts + [ErrorAlert(GenericError)];
      }
    }
  }
}
