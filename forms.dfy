/**
 * The reactive-form behaviour the three editing screens (new client, new
 * employee, new address) rely on: a form group of named controls with
 * validators, its validity and value, `patchValue`, and the error report
 * each screen builds with the same three private methods
 * `getErrorMessages`, `getFormErrors` and `showFormErrors`.
 */
module Forms {
  import opened Wrappers
  import opened Text
  import opened ClientModel
  import opened Services
  import Constants

  // ---- controls and validators ----

  /** The validators the three forms attach to their controls. */
  datatype Validator =
    | Required      // Validators.required
    | Email         // Validators.email
    | GroupedPhone  // Validators.pattern(/^\(\d{3}\) \d{3}-\d{4}$/)

  /** The form library's "empty input": null, or a string or array of length zero. */
  predicate EmptyInput(v: Value): (r: bool)
    ensures v.Null? ==> r
    ensures v.Str? ==> (r <==> |v.s| == 0)
    ensures v.Nested? && v.addresses.List? ==> (r <==> |v.addresses.items| == 0)
    ensures v.Nested? && !v.addresses.List? ==> !r
  {
    v.Null? || v == Str("") || v == Nested(List([]))
  }

  /** `^\(\d{3}\) \d{3}-\d{4}$`, character by character. */
  predicate GroupedShape(s: string) {
    |s| == 14 && s[0] == '(' && AllDigits(s[1..4]) && s[4] == ')' && s[5] == ' '
    && AllDigits(s[6..9]) && s[9] == '-' && AllDigits(s[10..])
  }

  /**
   * `^\(\d{3}\) \d{3}-\d{4}$`: `(AAA) PPP-LLLL` and nothing else, that is,
   * exactly ten digits grouped three, three and four.
   */
  predicate MatchesGroupedPhone(s: string): (r: bool)
    ensures r <==> |Digits(s)| == 10 && s == GroupedText(Digits(s))
  {
    GroupedShapeIff(s);
    GroupedShape(s)
  }

  lemma GroupedShapeIff(s: string)
    ensures GroupedShape(s) <==> |Digits(s)| == 10 && s == GroupedText(Digits(s))
  {
    if GroupedShape(s) {
      GroupedShapeIsText(s);
    }
    if |Digits(s)| == 10 && s == GroupedText(Digits(s)) {
      GroupedTextHasShape(Digits(s));
    }
  }

  /** Ten digits written `(AAA) PPP-LLLL`. */
  function GroupedText(d: string): string
    requires |d| == 10
  {
    "(" + d[..3] + ") " + d[3..6] + ("-" + d[6..])
  }

  lemma DigitsOfGrouped(a: string, p: string, l: string)
    requires AllDigits(a) && AllDigits(p) && AllDigits(l)
    ensures Digits("(" + a + ") " + p + ("-" + l)) == a + p + l
  {
    var x, y := "(" + a + ") " + p, "-" + l;
    DigitsOfAreaAndPrefix(a, p);
    PunctuationThenDigits("-", l);
    DigitsOfJoined(x, y, a + p, l);
  }

  lemma DigitsOfJoined(x: string, y: string, dx: string, dy: string)
    requires Digits(x) == dx && Digits(y) == dy
    ensures Digits(x + y) == dx + dy
  {
    DigitsAppend(x, y);
  }

  lemma DigitsOfAreaAndPrefix(a: string, p: string)
    requires AllDigits(a) && AllDigits(p)
    ensures Digits("(" + a + ") " + p) == a + p
  {
    var x, y := "(" + a, ") " + p;
    assert "(" + a + ") " + p == x + y;
    PunctuationThenDigits("(", a);
    PunctuationThenDigits(") ", p);
    DigitsAppend(x, y);
  }

  lemma PunctuationThenDigits(sep: string, d: string)
    requires forall i :: 0 <= i < |sep| ==> !IsDigit(sep[i])
    requires AllDigits(d)
    ensures Digits(sep + d) == d
  {
    DigitsAppend(sep, d);
    DigitsOfNonDigits(sep);
  }

  lemma GroupedShapeIsText(s: string)
    requires GroupedShape(s)
    ensures |Digits(s)| == 10 && s == GroupedText(Digits(s))
  {
    var a, p, l := s[1..4], s[6..9], s[10..];
    assert s == "(" + a + ") " + p + ("-" + l);
    DigitsOfGrouped(a, p, l);
    var d := a + p + l;
    assert d[..3] == a && d[3..6] == p && d[6..] == l;
  }

  lemma GroupedTextHasShape(d: string)
    requires |d| == 10 && AllDigits(d)
    ensures GroupedShape(GroupedText(d))
  {
    var t := GroupedText(d);
    assert t[1..4] == d[..3] && t[6..9] == d[3..6] && t[10..] == d[6..];
  }

  /** The keys of `control.errors`; `minlength`/`maxlength` carry `requiredLength`. */
  datatype ControlErrors = ControlErrors(
    required: bool, email: bool, pattern: bool,
    minLength: Option<nat>, maxLength: Option<nat>)
  {
    /** `control.errors` is non-null exactly when some key is present. */
    predicate Any() {
      required || email || pattern || minLength.Some? || maxLength.Some?
    }
  }

  const NoErrors := ControlErrors(false, false, false, None, None)

  datatype Control = Control(name: string, validators: set<Validator>, value: Value)

  /**
   * What the attached validators report for the control's value. `required`
   * fails on an empty input; `email` and `pattern` pass an empty input and
   * judge any other value (a value that is not a string never matches). The
   * acceptance rule of `Validators.email` is the parameter `emailOk`.
   */
  function ErrorsOf(c: Control, emailOk: string -> bool): (r: ControlErrors)
    ensures r.Any() <==> exists val :: val in c.validators && !Passes(val, c.value, emailOk)
    ensures r.minLength.None? && r.maxLength.None?
  {
    var v := c.value;
    ControlErrors(
      Required in c.validators && EmptyInput(v),
      Email in c.validators && !EmptyInput(v) && !(v.Str? && emailOk(v.s)),
      GroupedPhone in c.validators && !EmptyInput(v) && !(v.Str? && MatchesGroupedPhone(v.s)),
      None, None)
  }

  /** Whether one validator accepts a value, as that validator alone decides. */
  predicate Passes(val: Validator, v: Value, emailOk: string -> bool) {
    match val
    case Required => !EmptyInput(v)
    case Email => EmptyInput(v) || (v.Str? && emailOk(v.s))
    case GroupedPhone => EmptyInput(v) || (v.Str? && MatchesGroupedPhone(v.s))
  }

  /** A control without validators never reports an error. */
  lemma UnvalidatedControlHasNoErrors(c: Control, emailOk: string -> bool)
    requires c.validators == {}
    ensures ErrorsOf(c, emailOk) == NoErrors && !ErrorsOf(c, emailOk).Any()
  {
  }

  /** An empty control reports `required` and nothing else, whatever else it validates. */
  lemma EmptyControlIsOnlyRequired(c: Control, emailOk: string -> bool)
    requires Required in c.validators && EmptyInput(c.value)
    ensures ErrorsOf(c, emailOk) == NoErrors.(required := true)
  {
  }

  // ---- the form group ----

  datatype FormGroup = FormGroup(controls: seq<Control>)

  /** Each control's name with its validators: what `patchValue` never changes. */
  function Shape(g: FormGroup): seq<(string, set<Validator>)> {
    seq(|g.controls|, i requires 0 <= i < |g.controls| => (g.controls[i].name, g.controls[i].validators))
  }

  /** `form.valid`: no control reports an error. */
  predicate IsValid(g: FormGroup, emailOk: string -> bool): (r: bool)
    ensures r <==> forall c :: c in g.controls ==> ErrorsOf(c, emailOk) == NoErrors
  {
    forall i :: 0 <= i < |g.controls| ==> !ErrorsOf(g.controls[i], emailOk).Any()
  }

  /** The value of the control named `name`: the first one so named, or `Null`. */
  function ValueOf(cs: seq<Control>, name: string): (r: Value)
    ensures forall i :: 0 <= i < |cs| && cs[i].name == name && (forall j :: 0 <= j < i ==> cs[j].name != name) ==>
      r == cs[i].value
    ensures (forall i :: 0 <= i < |cs| ==> cs[i].name != name) ==> r == Null
  {
    if cs == [] then Null
    else if cs[0].name == name then cs[0].value
    else ValueOf(cs[1..], name)
  }

  /** The set of control names. */
  function NameSet(cs: seq<Control>): set<string> {
    set i | 0 <= i < |cs| :: cs[i].name
  }

  /** `form.value`: each control's name bound to its current value. */
  function FormValue(g: FormGroup): (r: map<string, Value>)
    ensures r.Keys == NameSet(g.controls)
    ensures forall i :: 0 <= i < |g.controls| ==> g.controls[i].name in r
    ensures forall k :: k in r ==> r[k] == ValueOf(g.controls, k)
  {
    map k | k in NameSet(g.controls) :: ValueOf(g.controls, k)
  }

  /** `form.value.id`. */
  function IdOf(g: FormGroup): Value {
    ValueOf(g.controls, "id")
  }

  /**
   * `${v}` in a template string: a list shows its items' texts joined by
   * commas, and an address or other object shows `[object Object]`.
   */
  function TemplateText(v: Value): (r: string)
    ensures v.Str? ==> r == v.s
    ensures v.Null? ==> r == "null"
    ensures v == Nested(List([])) ==> r == ""
    ensures v.Nested? && v.addresses.List? && |v.addresses.items| == 1 ==> r == ObjectText
  {
    match v
    case Str(s) => s
    case Null => "null"
    case Nested(List(items)) => Join(seq(|items|, _ => ObjectText), ",")
    case Nested(_) => ObjectText
  }

  const ObjectText := "[object Object]"

  function PatchControl(c: Control, record: map<string, Value>): Control {
    if c.name in record then c.(value := record[c.name]) else c
  }

  /**
   * `patchValue(record)`: every control whose name is a key of the record
   * takes the record's value; other controls and record keys that name no
   * control are ignored.
   */
  function Patch(g: FormGroup, record: map<string, Value>): (r: FormGroup)
    ensures Shape(r) == Shape(g)
    ensures forall i :: 0 <= i < |g.controls| && g.controls[i].name in record ==>
      r.controls[i].value == record[g.controls[i].name]
    ensures forall i :: 0 <= i < |g.controls| && g.controls[i].name !in record ==>
      r.controls[i] == g.controls[i]
  {
    FormGroup(seq(|g.controls|, i requires 0 <= i < |g.controls| => PatchControl(g.controls[i], record)))
  }

  /** Patching twice with the same record is patching once. */
  lemma PatchIdempotent(g: FormGroup, record: map<string, Value>)
    ensures Patch(Patch(g, record), record) == Patch(g, record)
  {
  }

  /** A record with none of the control names leaves the form as it is. */
  lemma PatchDisjoint(g: FormGroup, record: map<string, Value>)
    requires forall i :: 0 <= i < |g.controls| ==> g.controls[i].name !in record
    ensures Patch(g, record) == g
  {
    assert Patch(g, record).controls == g.controls;
  }

  // ---- getErrorMessages ----

  /** The two message tables: the client and employee forms', the address form's. */
  datatype Catalogue = WithFormats | LengthsOnly

  datatype Message =
    | RequiredMsg
    | EmailMsg
    | PatternMsg(onPhone: bool)
    | MinLengthMsg(n: nat)
    | MaxLengthMsg(n: nat)

  /** The position of each kind of message in the fixed order. */
  function Rank(m: Message): nat {
    match m
    case RequiredMsg => 0
    case EmailMsg => 1
    case PatternMsg(_) => 2
    case MinLengthMsg(_) => 3
    case MaxLengthMsg(_) => 4
  }

  /**
   * The text of each message. Its first two characters tell which key it
   * explains (see `MessageTextTellsKind`).
   */
  function MessageText(m: Message): (r: string)
    ensures |r| >= 2
    ensures m.MinLengthMsg? || m.MaxLengthMsg? ==> Includes(r, NatText(m.n))
  {
    match m
    case RequiredMsg => "Este campo es requerido"
    case EmailMsg => "Email inválido"
    case PatternMsg(onPhone) =>
      if onPhone then "El teléfono debe tener el formato (XXX) XXX-XXXX" else "Formato inválido"
    case MinLengthMsg(n) =>
      IncludesInfix("Mínimo ", NatText(n), " caracteres");
      "Mínimo " + NatText(n) + " caracteres"
    case MaxLengthMsg(n) =>
      IncludesInfix("Máximo ", NatText(n), " caracteres");
      "Máximo " + NatText(n) + " caracteres"
  }

  /** The second character of each message's text: no two kinds share it. */
  function KindMark(m: Message): char {
    match m
    case RequiredMsg => 's'
    case EmailMsg => 'm'
    case PatternMsg(onPhone) => if onPhone then 'l' else 'o'
    case MinLengthMsg(_) => 'í'
    case MaxLengthMsg(_) => 'á'
  }

  /**
   * Two messages with the same text explain the same key, and the two
   * pattern texts differ: a reader can tell every error apart.
   */
  lemma MessageTextTellsKind(m1: Message, m2: Message)
    requires MessageText(m1) == MessageText(m2)
    ensures Rank(m1) == Rank(m2)
    ensures m1.PatternMsg? ==> m1 == m2
  {
    MarkOfText(m1);
    MarkOfText(m2);
  }

  lemma MarkOfText(m: Message)
    ensures MessageText(m)[1] == KindMark(m)
  {
    match m
    case RequiredMsg => assert "Este campo es requerido"[1] == 's';
    case EmailMsg => assert "Email inválido"[1] == 'm';
    case PatternMsg(onPhone) =>
      if onPhone {
        PhoneTextMark();
      } else {
        assert "Formato inválido"[1] == 'o';
      }
    case MinLengthMsg(n) => CountTextMark("Mínimo ", n, 'í');
    case MaxLengthMsg(n) => CountTextMark("Máximo ", n, 'á');
  }

  lemma CountTextMark(head: string, n: nat, c: char)
    requires |head| >= 2 && head[1] == c
    ensures (head + NatText(n) + " caracteres")[1] == c
  {
  }

  lemma PhoneTextMark()
    ensures "El teléfono debe tener el formato (XXX) XXX-XXXX"[1] == 'l'
  {
    assert "El teléfono debe tener el formato (XXX) XXX-XXXX"
      == "El teléfono debe tener el formato " + "(XXX) XXX-XXXX";
  }

  /** The pattern message names the phone format only on the control called `phone`. */
  predicate IsPhoneField(fieldName: string) { fieldName == "phone" }

  /**
   * The messages `getErrorMessages` pushes: one per reported key, strictly
   * in the order required, email, pattern, minlength, maxlength. The pattern
   * message is the phone one exactly when the control is named `phone`. The
   * address form's table has no email and no pattern message.
   */
  function Messages(cat: Catalogue, fieldName: string, e: ControlErrors): (r: seq<Message>)
    ensures forall i, j :: 0 <= i < j < |r| ==> Rank(r[i]) < Rank(r[j])
  {
    (if e.required then [RequiredMsg] else [])
    + (if cat.WithFormats? && e.email then [EmailMsg] else [])
    + (if cat.WithFormats? && e.pattern then [PatternMsg(IsPhoneField(fieldName))] else [])
    + (match e.minLength case Some(n) => [MinLengthMsg(n)] case None => [])
    + (match e.maxLength case Some(n) => [MaxLengthMsg(n)] case None => [])
  }

  /** A message is pushed exactly when the error it explains is reported. */
  lemma InMessages(cat: Catalogue, fieldName: string, e: ControlErrors, m: Message)
    ensures m in Messages(cat, fieldName, e) <==>
      || (m == RequiredMsg && e.required)
      || (m == EmailMsg && cat.WithFormats? && e.email)
      || (m == PatternMsg(IsPhoneField(fieldName)) && cat.WithFormats? && e.pattern)
      || (m.MinLengthMsg? && e.minLength == Some(m.n))
      || (m.MaxLengthMsg? && e.maxLength == Some(m.n))
  {
    var p0 := if e.required then [RequiredMsg] else [];
    var p1 := if cat.WithFormats? && e.email then [EmailMsg] else [];
    var p2 := if cat.WithFormats? && e.pattern then [PatternMsg(IsPhoneField(fieldName))] else [];
    var p3 := match e.minLength case Some(n) => [MinLengthMsg(n)] case None => [];
    var p4 := match e.maxLength case Some(n) => [MaxLengthMsg(n)] case None => [];
    assert Messages(cat, fieldName, e) == p0 + p1 + p2 + p3 + p4;
    assert m in p0 + p1 + p2 + p3 + p4 <==> m in p0 || m in p1 || m in p2 || m in p3 || m in p4;
  }

  /** `getErrorMessages(fieldName, errors)`: the texts of `Messages`, in order. */
  function GetErrorMessages(cat: Catalogue, fieldName: string, e: ControlErrors): (r: seq<string>)
    ensures var ms := Messages(cat, fieldName, e);
      |r| == |ms| && forall i :: 0 <= i < |ms| ==> r[i] == MessageText(ms[i])
  {
    var ms := Messages(cat, fieldName, e);
    seq(|ms|, i requires 0 <= i < |ms| => MessageText(ms[i]))
  }

  /** With the full table, a control that reports an error gets at least one message. */
  lemma FormatsCatalogueExplainsEveryError(fieldName: string, e: ControlErrors)
    requires e.Any()
    ensures |GetErrorMessages(WithFormats, fieldName, e)| > 0
  {
    var m :=
      if e.required then RequiredMsg
      else if e.email then EmailMsg
      else if e.pattern then PatternMsg(IsPhoneField(fieldName))
      else if e.minLength.Some? then MinLengthMsg(e.minLength.value)
      else MaxLengthMsg(e.maxLength.GetOr(0));
    InMessages(WithFormats, fieldName, e, m);
  }

  /** A control that reports only `required` gets exactly the "required" message. */
  lemma RequiredOnlyMessages(cat: Catalogue, fieldName: string)
    ensures GetErrorMessages(cat, fieldName, NoErrors.(required := true)) == ["Este campo es requerido"]
  {
    assert Messages(cat, fieldName, NoErrors.(required := true)) == [RequiredMsg];
  }

  /** The address table says nothing about an email or pattern error. */
  lemma LengthsCatalogueIgnoresFormats(fieldName: string, e: ControlErrors)
    ensures forall m :: m in Messages(LengthsOnly, fieldName, e) ==>
      !m.EmailMsg? && !m.PatternMsg?
    ensures !e.required && e.minLength.None? && e.maxLength.None? ==>
      GetErrorMessages(LengthsOnly, fieldName, e) == []
  {
    forall m | m in Messages(LengthsOnly, fieldName, e)
      ensures !m.EmailMsg? && !m.PatternMsg?
    {
      InMessages(LengthsOnly, fieldName, e, m);
    }
  }

  // ---- getFormErrors ----

  /** An object of label -> messages, as its entries in insertion order. */
  type Entries = seq<(string, seq<string>)>

  predicate HasKey(d: Entries, k: string) {
    exists i :: 0 <= i < |d| && d[i].0 == k
  }

  ghost predicate DistinctKeys(d: Entries) {
    forall i, j :: 0 <= i < j < |d| ==> d[i].0 != d[j].0
  }

  /**
   * `d[k] = v`: an existing key keeps its place and takes the new value, a
   * new key is added at the end.
   */
  function Put(d: Entries, k: string, v: seq<string>): (r: Entries)
    ensures !HasKey(d, k) ==> r == d + [(k, v)]
    ensures HasKey(d, k) ==> |r| == |d| && forall i :: 0 <= i < |d| ==>
      r[i] == if d[i].0 == k then (k, v) else d[i]
    ensures forall k' :: HasKey(r, k') <==> HasKey(d, k') || k' == k
    ensures DistinctKeys(d) ==> DistinctKeys(r)
  {
    if HasKey(d, k) then
      var r := seq(|d|, i requires 0 <= i < |d| => if d[i].0 == k then (k, v) else d[i]);
      assert forall i :: 0 <= i < |d| ==> r[i].0 == d[i].0;
      assert forall k' :: HasKey(r, k') <==> HasKey(d, k') by {
        forall k' | HasKey(d, k') ensures HasKey(r, k') {
          var i :| 0 <= i < |d| && d[i].0 == k';
          assert r[i].0 == k';
        }
        forall k' | HasKey(r, k') ensures HasKey(d, k') {
          var i :| 0 <= i < |r| && r[i].0 == k';
          assert d[i].0 == k';
        }
      }
      r
    else
      var r := d + [(k, v)];
      assert r[|d|].0 == k;
      assert forall k' :: HasKey(r, k') <==> HasKey(d, k') || k' == k by {
        forall k' | HasKey(d, k') ensures HasKey(r, k') {
          var i :| 0 <= i < |d| && d[i].0 == k';
          assert r[i].0 == k';
        }
        forall k' | HasKey(r, k') && k' != k ensures HasKey(d, k') {
          var i :| 0 <= i < |r| && r[i].0 == k';
          assert d[i].0 == k';
        }
      }
      r
  }

  /** `fieldLabels[key] || key`: a missing or empty label falls back to the key. */
  function LabelOf(labels: map<string, string>, key: string): (r: string)
    ensures key in labels && labels[key] != "" ==> r == labels[key]
    ensures key !in labels || labels[key] == "" ==> r == key
    ensures r == "" ==> key == ""
  {
    if key in labels && labels[key] != "" then labels[key] else key
  }

  /** The entry one erroring control contributes. */
  function EntryFor(cat: Catalogue, labels: map<string, string>, c: Control, emailOk: string -> bool): (string, seq<string>) {
    (LabelOf(labels, c.name), GetErrorMessages(cat, c.name, ErrorsOf(c, emailOk)))
  }

  /**
   * `getFormErrors` over the controls in order: each control that reports
   * an error puts its messages under its label. Its keys are exactly the
   * labels of the erroring controls, each once.
   */
  function FormErrors(cat: Catalogue, labels: map<string, string>, cs: seq<Control>, emailOk: string -> bool): (r: Entries)
    ensures DistinctKeys(r)
    ensures forall k :: HasKey(r, k) <==>
      exists i :: 0 <= i < |cs| && ErrorsOf(cs[i], emailOk).Any() && LabelOf(labels, cs[i].name) == k
    decreases |cs|
  {
    if cs == [] then []
    else
      var init := cs[..|cs| - 1];
      var c := cs[|cs| - 1];
      var d := FormErrors(cat, labels, init, emailOk);
      assert forall i :: 0 <= i < |init| ==> init[i] == cs[i];
      if ErrorsOf(c, emailOk).Any() then
        var e := EntryFor(cat, labels, c, emailOk);
        Put(d, e.0, e.1)
      else d
  }

  /** Reference definition: the erroring controls' entries, in control order. */
  function Collect(cat: Catalogue, labels: map<string, string>, cs: seq<Control>, emailOk: string -> bool): (r: Entries)
    ensures |r| <= |cs|
    ensures forall e :: e in r ==> exists i :: 0 <= i < |cs| && ErrorsOf(cs[i], emailOk).Any() && e == EntryFor(cat, labels, cs[i], emailOk)
  {
    if cs == [] then []
    else
      var init := cs[..|cs| - 1];
      var c := cs[|cs| - 1];
      assert forall i :: 0 <= i < |init| ==> init[i] == cs[i];
      Collect(cat, labels, init, emailOk) + (if ErrorsOf(c, emailOk).Any() then [EntryFor(cat, labels, c, emailOk)] else [])
  }

  /** No two controls share a label (nor, therefore, a name). */
  predicate DistinctLabels(labels: map<string, string>, cs: seq<Control>) {
    forall i, j :: 0 <= i < j < |cs| ==> LabelOf(labels, cs[i].name) != LabelOf(labels, cs[j].name)
  }

  /**
   * When labels are distinct, no entry is overwritten: the error map is the
   * erroring controls' entries, one per control, in control order.
   */
  lemma {:induction false} FormErrorsInControlOrder(cat: Catalogue, labels: map<string, string>, cs: seq<Control>, emailOk: string -> bool)
    requires DistinctLabels(labels, cs)
    ensures FormErrors(cat, labels, cs, emailOk) == Collect(cat, labels, cs, emailOk)
    decreases |cs|
  {
    if cs != [] {
      var init := cs[..|cs| - 1];
      var c := cs[|cs| - 1];
      assert forall i :: 0 <= i < |init| ==> init[i] == cs[i];
      FormErrorsInControlOrder(cat, labels, init, emailOk);
      var d := FormErrors(cat, labels, init, emailOk);
      if ErrorsOf(c, emailOk).Any() {
        var k := LabelOf(labels, c.name);
        forall i | 0 <= i < |init| ensures LabelOf(labels, init[i].name) != k {
          assert init[i] == cs[i];
        }
      }
    }
  }

  /** Every erroring control's entry is in the error map, when labels are distinct. */
  lemma EntryOfErroringControl(cat: Catalogue, labels: map<string, string>, cs: seq<Control>, emailOk: string -> bool, i: nat)
    requires DistinctLabels(labels, cs) && i < |cs| && ErrorsOf(cs[i], emailOk).Any()
    ensures EntryFor(cat, labels, cs[i], emailOk) in FormErrors(cat, labels, cs, emailOk)
  {
    FormErrorsInControlOrder(cat, labels, cs, emailOk);
    CollectHasEntry(cat, labels, cs, emailOk, i);
  }

  lemma {:induction false} CollectHasEntry(cat: Catalogue, labels: map<string, string>, cs: seq<Control>, emailOk: string -> bool, i: nat)
    requires i < |cs| && ErrorsOf(cs[i], emailOk).Any()
    ensures EntryFor(cat, labels, cs[i], emailOk) in Collect(cat, labels, cs, emailOk)
    decreases |cs|
  {
    var init := cs[..|cs| - 1];
    if i < |cs| - 1 {
      assert init[i] == cs[i];
      CollectHasEntry(cat, labels, init, emailOk, i);
    }
  }

  /** The form is valid exactly when the error map is empty. */
  lemma ValidIffNoFormErrors(cat: Catalogue, labels: map<string, string>, g: FormGroup, emailOk: string -> bool)
    ensures IsValid(g, emailOk) <==> FormErrors(cat, labels, g.controls, emailOk) == []
  {
    var d := FormErrors(cat, labels, g.controls, emailOk);
    if !IsValid(g, emailOk) {
      var i :| 0 <= i < |g.controls| && ErrorsOf(g.controls[i], emailOk).Any();
      assert HasKey(d, LabelOf(labels, g.controls[i].name));
    } else if d != [] {
      assert HasKey(d, d[0].0);
    }
  }

  /** `getFormErrors()`: fill the error map control by control. */
  method GetFormErrors(cat: Catalogue, labels: map<string, string>, g: FormGroup, emailOk: string -> bool)
    returns (errors: Entries)
    ensures errors == FormErrors(cat, labels, g.controls, emailOk)
  {
    errors := [];
    for i := 0 to |g.controls|
      invariant errors == FormErrors(cat, labels, g.controls[..i], emailOk)
    {
      var c := g.controls[i];
      assert g.controls[..i + 1][..i] == g.controls[..i];
      var e := ErrorsOf(c, emailOk);
      if e.Any() {
        errors := Put(errors, LabelOf(labels, c.name), GetErrorMessages(cat, c.name, e));
      }
    }
    assert g.controls[..|g.controls|] == g.controls;
  }

  // ---- showFormErrors ----

  /** One entry of the alert: `<strong>label:</strong> m1, m2`. */
  function EntryLine(e: (string, seq<string>)): (r: string)
    ensures StartsWith(r, "<strong>" + e.0 + ":</strong> ")
    ensures forall i :: 0 <= i < |e.1| ==> Includes(r, e.1[i])
  {
    var head := "<strong>" + e.0 + ":</strong> ";
    var r := head + Join(e.1, ", ");
    assert r[..|head|] == head;
    forall i | 0 <= i < |e.1| ensures Includes(r, e.1[i]) {
      JoinIncludesPart(e.1, ", ", i);
      IncludesInSuffix(head, Join(e.1, ", "), e.1[i]);
    }
    r
  }

  function EntryLines(d: Entries): (r: seq<string>)
    ensures |r| == |d| && forall i :: 0 <= i < |d| ==> r[i] == EntryLine(d[i])
  {
    seq(|d|, i requires 0 <= i < |d| => EntryLine(d[i]))
  }

  /** The header every form error alert starts with. */
  const AlertHeader := Constants.FormError + "<br><br>"

  /**
   * The text of `showFormErrors`' alert: the form error header, a blank
   * line, then one line per entry of the error map, with every entry's
   * line present.
   */
  function FormErrorAlert(d: Entries): (r: string)
    ensures StartsWith(r, AlertHeader)
    ensures d == [] ==> r == AlertHeader
    ensures forall i :: 0 <= i < |d| ==> Includes(r, EntryLine(d[i]))
  {
    var lines := EntryLines(d);
    var r := AlertHeader + Join(lines, "<br>");
    assert r[..|AlertHeader|] == AlertHeader;
    forall i | 0 <= i < |d| ensures Includes(r, EntryLine(d[i])) {
      JoinIncludesPart(lines, "<br>", i);
      IncludesInSuffix(AlertHeader, Join(lines, "<br>"), lines[i]);
    }
    r
  }

  /**
   * `showFormErrors()` as a whole: the alert names each erroring control's
   * label with its messages, given distinct labels.
   */
  lemma AlertNamesEveryError(cat: Catalogue, labels: map<string, string>, cs: seq<Control>, emailOk: string -> bool, i: nat)
    requires DistinctLabels(labels, cs) && i < |cs| && ErrorsOf(cs[i], emailOk).Any()
    ensures Includes(FormErrorAlert(FormErrors(cat, labels, cs, emailOk)), EntryLine(EntryFor(cat, labels, cs[i], emailOk)))
  {
    var d := FormErrors(cat, labels, cs, emailOk);
    EntryOfErroringControl(cat, labels, cs, emailOk, i);
    var j :| 0 <= j < |d| && d[j] == EntryFor(cat, labels, cs[i], emailOk);
  }

  /** `AlertNamesEveryError`, with the entry's label and messages spelled out. */
  lemma AlertShowsEntry(cat: Catalogue, labels: map<string, string>, cs: seq<Control>, emailOk: string -> bool,
                        i: nat, key: string, msgs: seq<string>)
    requires DistinctLabels(labels, cs) && i < |cs| && ErrorsOf(cs[i], emailOk).Any()
    requires EntryFor(cat, labels, cs[i], emailOk) == (key, msgs)
    ensures Includes(FormErrorAlert(FormErrors(cat, labels, cs, emailOk)),
                     "<strong>" + key + ":</strong> " + Join(msgs, ", "))
  {
    AlertNamesEveryError(cat, labels, cs, emailOk, i);
  }
}
