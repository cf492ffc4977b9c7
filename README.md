# Orion-crm client management, modelled in Dafny

This project models the client-management screens of an Angular CRM:

- the phone and tax-ID (RNC) input masks;
- the client list and the client detail views;
- the new-client, new-employee and new-address editing forms;
- the store path builders and alert texts;
- the client record.

There is one Dafny module per source file:

| module | models |
|---|---|
| `PhoneMask` | phone-mask.directive.ts |
| `RncMask` | rnc-mask.directive.ts |
| `ClientControl` | client-control.component.ts |
| `ClientDetail` | client.component.ts |
| `NewClient` | new-client.component.ts |
| `NewEmployee` | new-employee.component.ts |
| `NewAddress` | new-address.component.ts |
| `Constants` | constants.ts |
| `ClientModel` | client.model.ts |

Four shared modules sit underneath:

- `Wrappers`: `Option` and the `Succeeded`/`Failed` outcome of a store call.
- `Text`: the JavaScript string operations used: `replace(/\D/g, '')`, `substring`, ASCII `toLowerCase`, `includes`, `trim`-emptiness, `join` and number-to-text.
- `Services`: stand-ins for the record store, the alert presenter and route parameters.
- `Forms`: the reactive-form behaviour the three editing screens share. This covers validators, validity, `form.value` and `patchValue`. It also holds the three private methods each screen duplicates: `getErrorMessages`, `getFormErrors` and `showFormErrors`.

Pure code is written as functions and lemmas. The formatters, path builders, record constructor, address normalisation, search and error-message builders are in this group.

Components and directives are classes whose fields the methods update:

- The masks keep the displayed text and the list of values emitted to the form.
- The views and forms keep the source's own fields, such as `isLoading`, `editingClient` and `isSubmitting`. They also keep a log of store requests and a log of alerts.

A store call is recorded as a request. Its answer arrives later through a separate completion method (`OnSaveDone(outcome)`, `OnClientData(record)`, ...). The `forEach` in `getFormErrors` is a `for` loop in `Forms.GetFormErrors`, proved equal to the recursive `Forms.FormErrors`.

Two behaviours of the code are worth knowing, and the model follows the code in both:

- The phone mask writes `(809)-123-4567`, with a dash after the area. The employee form's phone validator and its message `(XXX) XXX-XXXX` expect a space there: `(809) 123-4567`.
- The new-client form builds `addresses: []`. In the form builder's array notation this is a control whose value is `null`, not an empty list.

## Model

| member | source | states |
|---|---|---|
| `Text.Digits` | src/app/utils/phone-mask.directive.ts:25 | the digits of a string are digits, no longer than it, and a digit string is its own digits |
| `Text.DigitsAppend` | src/app/utils/phone-mask.directive.ts:25 | stripping non-digits distributes over concatenation |
| `Text.Substring` | src/app/utils/phone-mask.directive.ts:34 | `substring` clamps its indices: for `0 <= start <= end` it is the slice cut at the string's length |
| `Text.ToLower` | src/app/manage/client-control/client-control.component.ts:59 | lower-casing keeps the length and lower-cases each ASCII letter in place |
| `Text.IncludesIff` | src/app/manage/client-control/client-control.component.ts:67-68 | `includes` holds exactly when the term occurs at some position of the text |
| `Text.IsBlank` | src/app/manage/client-control/client-control.component.ts:61 | `!term.trim()`: all white space exactly when `trim` leaves nothing |
| `Text.Join` | src/app/utils/rnc-mask.directive.ts:70 | joining no parts gives `""`, and joining one part gives that part |
| `Text.JoinIncludesPart` | src/app/manage/new-client/new-client.component.ts:109-114 | every part occurs in the joined string |
| `Text.NatText` | src/app/manage/new-address/new-address.component.ts:165-167 | a number's decimal text is a non-empty string of digits |
| `PhoneMask.FormatPhoneWith` | src/app/utils/phone-mask.directive.ts:90-117 | `""` exactly for `""`; otherwise `(A`, `(AAA)`, `(AAA)sP..` or `(AAA)sPPP-L..` by input length, `s` being the separator after the area; at most ten characters are read |
| `PhoneMask.FormatPhone` | src/app/utils/phone-mask.directive.ts:90-117 | `""` exactly for `""`; a full number reads `(AAA)-PPP-LLLL`, a dash after the area |
| `PhoneMask.FormatPhoneReadsTen` | src/app/utils/phone-mask.directive.ts:93-95 | only the first ten characters of the argument affect the result |
| `PhoneMask.FormatPhoneWithRoundTrip` | src/app/utils/phone-mask.directive.ts:90-117 | for at most ten digits and any non-digit separator, stripping the mask gives back the digits |
| `PhoneMask.FormatPhoneRoundTrip` | src/app/utils/phone-mask.directive.ts:90-117 | for at most ten digits, stripping `formatPhone`'s output gives back the digits |
| `PhoneMask.FormatPhoneIdempotent` | src/app/utils/phone-mask.directive.ts:90-117 | strip-then-reformat leaves a formatted number unchanged, and the mask holds at most ten digits |
| `PhoneMask.FormatPhoneShape` | src/app/utils/phone-mask.directive.ts:99-114 | `(` iff at least 1 digit; `)` iff at least 3; `)-` before the prefix iff more than 3; `-` before the line iff more than 6; the dash count follows |
| `PhoneMask.DropLastDigit` | src/app/utils/phone-mask.directive.ts:59-62 | dropping the last digit with `substring(0, length - 1)` leaves bare digits (nothing for an empty number), whose mask is again a mask of at most ten digits |
| `PhoneMask.FormatPhoneGrouped` | src/app/utils/phone-mask.directive.ts:90-117 | corrected formatter: `""` exactly for `""`; a full number reads `(AAA) PPP-LLLL`, a space after the area |
| `PhoneMask.PhoneMaskDirective.constructor` | src/app/utils/phone-mask.directive.ts:15-19 | starts with an empty field that has emitted nothing |
| `PhoneMask.PhoneMaskDirective.OnInput` | src/app/utils/phone-mask.directive.ts:21-42 | no digits: shows and emits `""`; otherwise shows and emits the mask of the first ten digits; keeps the display a mask and every emitted value a mask or digits |
| `PhoneMask.PhoneMaskDirective.OnKeyDown` | src/app/utils/phone-mask.directive.ts:49-67 | only Backspace at caret 5 acts: drops the number's last digit, shows the mask of the rest and emits the rest unformatted; any other key changes nothing |
| `PhoneMask.PhoneMaskDirective.WriteValue` | src/app/utils/phone-mask.directive.ts:69-76 | a falsy value clears the field; otherwise the field shows the mask of the value's digits (of which ten are read); nothing is emitted |
| `RncMask.NonEmpty` | src/app/utils/rnc-mask.directive.ts:63-68 | `filter(Boolean)`: a string is in the result iff it is a non-empty part; each non-empty part occurs as often as in the input and `""` never does |
| `RncMask.NonEmptyAppend` | src/app/utils/rnc-mask.directive.ts:63-68 | the filter distributes over concatenation, so with the one-part case it keeps the parts' order |
| `RncMask.NonEmptyGroups` | src/app/utils/rnc-mask.directive.ts:63-68 | the filtered four groups are exactly the groups present in the first nine characters |
| `RncMask.PresentGroups` | src/app/utils/rnc-mask.directive.ts:63-68 | a string of length n fills 0, 1, 2, 3 or 4 groups at the lengths 0, 1, up to 3, up to 8, and above 8 |
| `RncMask.FormatRnc` | src/app/utils/rnc-mask.directive.ts:60-71 | the mask is `""` exactly for `""` |
| `RncMask.FormatRncCases` | src/app/utils/rnc-mask.directive.ts:60-71 | the mask for each length: `D`, `D-DD`, `D-DD-DDDDD` and `D-DD-DDDDD-D` |
| `RncMask.FormatRncIsJoin` | src/app/utils/rnc-mask.directive.ts:60-71 | the mask is the present groups of the first nine characters joined by `-` |
| `RncMask.JoinDigitGroups` | src/app/utils/rnc-mask.directive.ts:70 | joining non-empty digit groups by `-` is well separated, has one dash fewer than groups and strips back to the groups' concatenation |
| `RncMask.FormatRncRoundTrip` | src/app/utils/rnc-mask.directive.ts:63-70 | for at most nine digits, removing the dashes gives back the digits |
| `RncMask.FormatRncShape` | src/app/utils/rnc-mask.directive.ts:68-70 | no dash at either end, no `--`, and one dash fewer than present groups |
| `RncMask.FormatRncReadsNine` | src/app/utils/rnc-mask.directive.ts:63-67 | only the first nine characters affect the mask |
| `RncMask.RncMaskDirective.constructor` | src/app/utils/rnc-mask.directive.ts:15-19 | starts with an empty field that has emitted nothing |
| `RncMask.RncMaskDirective.OnInput` | src/app/utils/rnc-mask.directive.ts:21-32 | shows and emits the same text: the mask of the first nine digits, `""` when there are none; keeps the display and every emitted value a mask of at most nine digits |
| `RncMask.RncMaskDirective.WriteValue` | src/app/utils/rnc-mask.directive.ts:39-46 | a falsy value clears the field; otherwise it shows the mask of all the value's digits, equal to that of the first nine; nothing is emitted |
| `Constants.ClientById` | src/app/utils/constants.ts:3 | `clients/` followed by exactly the id |
| `Constants.ClientAddresses` | src/app/utils/constants.ts:4 | the client's path followed by `/addresses` |
| `Constants.ClientAddress` | src/app/utils/constants.ts:5-6 | the client's addresses path followed by `/` and the address id |
| `Constants.ClientPathCoversAddresses` | src/app/utils/constants.ts:3-6 | a client's path plus `/` is a proper prefix of each of its address paths |
| `Constants.ClientByIdInjective` | src/app/utils/constants.ts:3 | distinct ids give distinct client paths |
| `Constants.ClientAddressInjective` | src/app/utils/constants.ts:5-6 | for client ids without `/`, an address path determines both the client id and the address id |
| `Constants.OutcomeMessagesDistinct` | src/app/utils/constants.ts:10-15 | the six created, updated and deleted texts are pairwise distinct: every client text differs from every address text, and the three outcomes differ within each kind |
| `ClientModel.Values` | src/app/manage/client-control/client-control.component.ts:83 | `Object.values` gives one value per entry, in the entries' order |
| `ClientModel.ValuesOfObject` | src/app/manage/client-control/client-control.component.ts:83 | with distinct keys, `Object.values` has one element per key, holds every key's value, and holds nothing else |
| `ClientModel.NewClient` | src/app/Model/client.model.ts:24-45 | every argument except `mode` is stored unchanged; the image URL is always present |
| `ClientModel.ModeIsIgnored` | src/app/Model/client.model.ts:24-45 | two calls differing only in `mode` build the same record |
| `ClientModel.DefaultClient` | src/app/Model/client.model.ts:25-34 | the defaults: falsy addresses, status Active, every string empty |
| `Services.ParamOrEmpty` | src/app/manage/client/client.component.ts:90 | a missing route parameter reads as `""`, a present one as itself |
| `ClientControl.TransformClients` | src/app/manage/client-control/client-control.component.ts:76-89 | same length and order; only `addresses` changes; an object becomes its values, a falsy value `[]`; an array (or other truthy value) leaves the record unchanged |
| `ClientControl.ListedAddressesAreArrays` | src/app/manage/client-control/client-control.component.ts:78-86 | when no record's addresses is a truthy non-object value (a number, a string, `true`), every record's addresses is an array after normalisation |
| `ClientControl.TransformClientsIdempotent` | src/app/manage/client-control/client-control.component.ts:76-89 | normalising twice is normalising once |
| `ClientControl.FilterClients` | src/app/manage/client-control/client-control.component.ts:65-69 | a client is in the result iff it is in the list and its lower-cased name or id contains the term; each match occurs as often as in the list, and no other client occurs |
| `ClientControl.FilterIsSubsequence` | src/app/manage/client-control/client-control.component.ts:65-69 | the filter keeps the list's order |
| `ClientControl.FilterAppend` | src/app/manage/client-control/client-control.component.ts:65-69 | filtering distributes over concatenation |
| `ClientControl.FilterSingleton` | src/app/manage/client-control/client-control.component.ts:65-69 | a one-client list keeps its client exactly when the client matches |
| `ClientControl.EmptyTermMatchesAll` | src/app/manage/client-control/client-control.component.ts:65-69 | the empty term keeps every client |
| `ClientControl.TrackByClientId` | src/app/manage/client-control/client-control.component.ts:72-74 | the row key is the client's id |
| `ClientControl.ClientControlComponent.constructor` | src/app/manage/client-control/client-control.component.ts:19-21 | no clients, not loading, search box holding `""` |
| `ClientControl.ClientControlComponent.LoadClients` | src/app/manage/client-control/client-control.component.ts:33-37 | sets `isLoading` and subscribes to `clients`; the list is kept |
| `ClientControl.ClientControlComponent.OnClientsData` | src/app/manage/client-control/client-control.component.ts:39-42 | the list becomes the normalised batch and loading ends |
| `ClientControl.ClientControlComponent.OnClientsError` | src/app/manage/client-control/client-control.component.ts:43-46 | the list is kept and loading ends |
| `ClientControl.ClientControlComponent.SetSearch` | src/app/manage/client-control/client-control.component.ts:20 | only the search value changes |
| `ClientControl.ClientControlComponent.SearchTerm` | src/app/manage/client-control/client-control.component.ts:59 | a null search value reads as `""`; otherwise the value lower-cased character by character |
| `ClientControl.ClientControlComponent.GetFilteredClients` | src/app/manage/client-control/client-control.component.ts:58-70 | a term that trims to nothing gives the whole list; otherwise the matching clients, each as often as listed and no others, as a subsequence of the list |
| `ClientDetail.TransformAddresses` | src/app/manage/client/client.component.ts:93-102 | only `addresses` changes; an object becomes its values; anything else, a falsy value included, is left as it is |
| `ClientDetail.ListAndDetailDiffer` | src/app/manage/client/client.component.ts:93-102 | the list and detail normalisations agree iff the addresses are not falsy |
| `ClientDetail.ClientComponent.constructor` | src/app/manage/client/client.component.ts:24-25 | no record and not loading; nothing requested or alerted |
| `ClientDetail.ClientComponent.GetClientId` | src/app/manage/client/client.component.ts:89-91 | the route id, or `""` when it is missing |
| `ClientDetail.ClientComponent.LoadClient` | src/app/manage/client/client.component.ts:36-47 | no id: one error alert, no request, `isLoading` unchanged; otherwise sets `isLoading` and subscribes to `clients/{id}` |
| `ClientDetail.ClientComponent.OnClientData` | src/app/manage/client/client.component.ts:48-51 | the record becomes the normalised data and loading ends |
| `ClientDetail.ClientComponent.OnClientError` | src/app/manage/client/client.component.ts:52-55 | the record is kept, a generic error alert is raised and loading ends |
| `ClientDetail.ClientComponent.DeleteClient` | src/app/manage/client/client.component.ts:59-63 | no id: nothing; otherwise exactly one removal of `clients/{id}` |
| `ClientDetail.ClientComponent.OnDeleteClientDone` | src/app/manage/client/client.component.ts:63-70 | success confirms with the deletion text and navigates back; failure raises the generic error |
| `ClientDetail.ClientComponent.DeleteAddress` | src/app/manage/client/client.component.ts:73-74 | exactly one removal of `clients/{clientId}/addresses/{addressId}` |
| `ClientDetail.ClientComponent.OnDeleteAddressDone` | src/app/manage/client/client.component.ts:74-82 | success confirms, then reloads the route's client; failure raises the generic error and does not reload |
| `Forms.EmptyInput` | src/app/manage/new-client/new-client.component.ts:73-80 | the form library's empty input: null, a string of length zero or a list of length zero; any other object is not empty |
| `Forms.MatchesGroupedPhone` | src/app/manage/new-employee/new-employee.component.ts:75-78 | the phone pattern accepts exactly ten digits written `(AAA) PPP-LLLL` |
| `Forms.ErrorsOf` | src/app/manage/new-client/new-client.component.ts:73-80 | a control reports an error iff one of its validators rejects its value, each judged alone; no length errors arise |
| `Forms.IsValid` | src/app/manage/new-client/new-client.component.ts:45 | `form.valid`: every control's error set is empty |
| `Forms.UnvalidatedControlHasNoErrors` | src/app/manage/new-employee/new-employee.component.ts:69-80 | a control without validators never reports an error |
| `Forms.EmptyControlIsOnlyRequired` | src/app/manage/new-client/new-client.component.ts:73-80 | an empty required control reports `required` and nothing else, even with `email` attached |
| `Forms.ValueOf` | src/app/manage/new-client/new-client.component.ts:51 | a control's value is the value of the first control with that name, and `null` when no control has it |
| `Forms.FormValue` | src/app/manage/new-client/new-client.component.ts:51 | `form.value` binds exactly the control names, each to its control's value |
| `Forms.Patch` | src/app/manage/new-client/new-client.component.ts:97-100 | `patchValue` keeps names and validators, gives each control named in the record the record's value, and leaves the others unchanged |
| `Forms.PatchIdempotent` | src/app/manage/new-client/new-client.component.ts:99 | patching twice with one record is patching once |
| `Forms.PatchDisjoint` | src/app/manage/new-client/new-client.component.ts:99 | a record naming no control leaves the form unchanged |
| `Forms.Messages` | src/app/manage/new-client/new-client.component.ts:143-167 | messages come strictly in the order required, email, pattern, minlength, maxlength, each at most once |
| `Forms.InMessages` | src/app/manage/new-client/new-client.component.ts:143-167 | each message is present iff its error key is set: email and pattern only in the client/employee table, and the phone text iff the field is `phone` |
| `Forms.MessageText` | src/app/manage/new-client/new-client.component.ts:146-164 | every text has at least two characters, and the length texts show the required length |
| `Forms.MessageTextTellsKind` | src/app/manage/new-client/new-client.component.ts:146-164 | equal texts explain the same key, and the phone and generic pattern texts differ |
| `Forms.GetErrorMessages` | src/app/manage/new-client/new-client.component.ts:143-167 | one text per message, in the messages' order |
| `Forms.FormatsCatalogueExplainsEveryError` | src/app/manage/new-client/new-client.component.ts:143-167 | with the client/employee table, a control with any error gets at least one message |
| `Forms.RequiredOnlyMessages` | src/app/manage/new-client/new-client.component.ts:146-148 | a control reporting only `required` gets exactly `Este campo es requerido` |
| `Forms.LengthsCatalogueIgnoresFormats` | src/app/manage/new-address/new-address.component.ts:149-163 | the address table never gives an email or pattern message, and gives none at all without required or length errors |
| `Forms.LabelOf` | src/app/manage/new-client/new-client.component.ts:133 | `fieldLabels[key]` falling back to `key`: the label when it is present and non-empty, the key otherwise |
| `Forms.Put` | src/app/manage/new-client/new-client.component.ts:133-136 | a new key is appended; an existing key keeps its place and takes the new value; keys stay distinct |
| `Forms.FormErrors` | src/app/manage/new-client/new-client.component.ts:119-141 | the keys are exactly the labels of the controls with errors, each once |
| `Forms.Collect` | src/app/manage/new-client/new-client.component.ts:119-141 | reference definition: each entry belongs to a control with errors |
| `Forms.FormErrorsInControlOrder` | src/app/manage/new-client/new-client.component.ts:130-138 | with distinct labels, the error map is the erroring controls' entries in control order |
| `Forms.EntryOfErroringControl` | src/app/manage/new-client/new-client.component.ts:130-138 | with distinct labels, each erroring control's label and messages are in the map |
| `Forms.ValidIffNoFormErrors` | src/app/manage/new-client/new-client.component.ts:119-141 | the form is valid iff the error map is empty |
| `Forms.GetFormErrors` | src/app/manage/new-client/new-client.component.ts:119-141 | the control-by-control loop builds exactly that error map |
| `Forms.EntryLine` | src/app/manage/new-client/new-client.component.ts:112 | an entry line starts `<strong>label:</strong> ` and contains each of its messages |
| `Forms.TemplateText` | src/app/utils/constants.ts:3 | `${v}`: a string as itself, null as `null`, an empty list as `""`, a one-item list as `[object Object]` |
| `Forms.FormErrorAlert` | src/app/manage/new-client/new-client.component.ts:107-117 | the alert starts with the form-error header and `<br><br>`, is only the header when there are no errors, and contains every entry's `<strong>label:</strong> messages` line |
| `Forms.AlertNamesEveryError` | src/app/manage/new-client/new-client.component.ts:107-141 | with distinct labels, the alert names every erroring control with its messages |
| `Forms.AlertShowsEntry` | src/app/manage/new-client/new-client.component.ts:107-117 | the same, with the label and messages written out |
| `NewClient.InitialForm` | src/app/manage/new-client/new-client.component.ts:69-82 | a fresh form has the nine controls with their validators, carries the generated id, and every required control starts empty |
| `NewClient.ShapeNames` | src/app/manage/new-client/new-client.component.ts:71-81 | a form of the client shape has its nine names and validators by position |
| `NewClient.LabelTable` | src/app/manage/new-client/new-client.component.ts:121-133 | `fieldLabels[key] \|\| key` for each control |
| `NewClient.ShapeLabels` | src/app/manage/new-client/new-client.component.ts:121-133 | labels by position; `enterpriseName`, `rnc` and `imageUrl` use raw names; labels are distinct; no control is `role`, `mode` or `assignedTo` |
| `NewClient.FreshControlErrors` | src/app/manage/new-client/new-client.component.ts:71-81 | on a fresh form the six empty required fields report `required` only, and id, status and addresses report nothing |
| `NewClient.FreshFormShowsRawNames` | src/app/manage/new-client/new-client.component.ts:107-141 | saving a fresh form shows `<strong>enterpriseName:</strong> Este campo es requerido`, and the same for `rnc` and `imageUrl` |
| `NewClient.FreshFormIsInvalid` | src/app/manage/new-client/new-client.component.ts:45 | a fresh form cannot be saved |
| `NewClient.EmptyEmailIsReported` | src/app/manage/new-client/new-client.component.ts:76 | an empty email is reported as `Email` with only the required message, and the alert shows it |
| `NewClient.NewClientComponent.constructor` | src/app/manage/new-client/new-client.component.ts:26-28 | no form yet, not editing, not submitting |
| `NewClient.NewClientComponent.NgOnInit` | src/app/manage/new-client/new-client.component.ts:30-33 | builds the form around the generated id before the edit check |
| `NewClient.NewClientComponent.CheckEditMode` | src/app/manage/new-client/new-client.component.ts:84-90 | a truthy route id sets edit mode and subscribes to `clients/{id}`; otherwise nothing |
| `NewClient.NewClientComponent.OnClientLoaded` | src/app/manage/new-client/new-client.component.ts:92-101 | a record patches the form; `null` is ignored; the shape is kept |
| `NewClient.NewClientComponent.OnLoadError` | src/app/manage/new-client/new-client.component.ts:102-104 | one generic error alert |
| `NewClient.NewClientComponent.ShowFormErrors` | src/app/manage/new-client/new-client.component.ts:107-117 | one error alert with the text of the form's error map |
| `NewClient.NewClientComponent.SaveClient` | src/app/manage/new-client/new-client.component.ts:44-54 | invalid: exactly one error alert, no write, `isSubmitting` unchanged; valid: `isSubmitting` and one write of the whole form value at `clients/{form id}` |
| `NewClient.NewClientComponent.OnSaveDone` | src/app/manage/new-client/new-client.component.ts:55-66 | `isSubmitting` ends; success confirms with the updated text iff editing, else the created text; failure raises the generic error |
| `NewEmployee.InitialForm` | src/app/manage/new-employee/new-employee.component.ts:66-82 | a fresh form has the nine controls with their validators, carries the generated id, and every required control starts empty |
| `NewEmployee.ShapeNames` | src/app/manage/new-employee/new-employee.component.ts:68-81 | a form of the employee shape has its nine names and validators by position |
| `NewEmployee.LabelTable` | src/app/manage/new-employee/new-employee.component.ts:123-135 | `fieldLabels[key] \|\| key` for each control |
| `NewEmployee.ShapeLabels` | src/app/manage/new-employee/new-employee.component.ts:123-135 | labels by position, pairwise distinct |
| `NewEmployee.UnvalidatedNeverReported` | src/app/manage/new-employee/new-employee.component.ts:132-140 | `id`, `status` and `addresses` never appear in the error map |
| `NewEmployee.LabelledReported` | src/app/manage/new-employee/new-employee.component.ts:123-140 | each of the six validated controls appears under its Spanish label iff it has an error |
| `NewEmployee.BadPhoneMessage` | src/app/manage/new-employee/new-employee.component.ts:154-156 | a non-empty phone not in the `(AAA) PPP-LLLL` form is reported under `Teléfono` with only the phone-format message |
| `NewEmployee.MaskOutputNeverGrouped` | src/app/manage/new-employee/new-employee.component.ts:77 | no output of the phone mask matches the employee phone pattern |
| `NewEmployee.DigitsNeverGrouped` | src/app/manage/new-employee/new-employee.component.ts:77 | bare digits never match the pattern |
| `NewEmployee.MaskedPhoneBlocksSave` | src/app/manage/new-employee/new-employee.component.ts:75-78 | a phone field holding any value the mask emits makes the form invalid |
| `NewEmployee.GroupedMaskMatches` | src/app/manage/new-employee/new-employee.component.ts:77 | the corrected mask of ten digits matches the pattern |
| `NewEmployee.GroupedPhonePasses` | src/app/manage/new-employee/new-employee.component.ts:75-78 | with the corrected mask the phone is error-free iff all ten digits are entered |
| `NewEmployee.NewEmployeeComponent.constructor` | src/app/manage/new-employee/new-employee.component.ts:26-28 | no form yet, not editing, not submitting |
| `NewEmployee.NewEmployeeComponent.NgOnInit` | src/app/manage/new-employee/new-employee.component.ts:30-33 | builds the form around the generated id before the edit check |
| `NewEmployee.NewEmployeeComponent.CheckEditMode` | src/app/manage/new-employee/new-employee.component.ts:84-90 | a truthy route id sets edit mode and subscribes to the employee's path; otherwise nothing |
| `NewEmployee.NewEmployeeComponent.OnEmployeeLoaded` | src/app/manage/new-employee/new-employee.component.ts:92-101 | a record patches the form; `null` is ignored; the shape is kept |
| `NewEmployee.NewEmployeeComponent.OnLoadError` | src/app/manage/new-employee/new-employee.component.ts:102-105 | one generic error alert |
| `NewEmployee.NewEmployeeComponent.ShowFormErrors` | src/app/manage/new-employee/new-employee.component.ts:109-119 | one error alert with the text of the form's error map |
| `NewEmployee.NewEmployeeComponent.SaveEmployee` | src/app/manage/new-employee/new-employee.component.ts:40-50 | invalid: exactly one error alert and no write; valid: `isSubmitting` and one write of the whole form value at the employee path of the form id |
| `NewEmployee.NewEmployeeComponent.OnSaveDone` | src/app/manage/new-employee/new-employee.component.ts:51-63 | `isSubmitting` ends; success confirms with the updated text iff editing, else the created text; failure raises the generic error |
| `NewAddress.GenerateAddressId` | src/app/manage/new-address/new-address.component.ts:165-167 | a non-empty digit string, so it holds no `/` |
| `NewAddress.InitialForm` | src/app/manage/new-address/new-address.component.ts:76-86 | a fresh form has the seven controls with their validators, carries the generated id, and every required control starts empty |
| `NewAddress.ShapeNames` | src/app/manage/new-address/new-address.component.ts:77-85 | a form of the address shape has its seven names and validators by position |
| `NewAddress.LabelTable` | src/app/manage/new-address/new-address.component.ts:127-139 | `fieldLabels[key] \|\| key` for each control |
| `NewAddress.ShapeLabels` | src/app/manage/new-address/new-address.component.ts:127-139 | every control other than `id` has its own label, different from its name, and labels are distinct |
| `NewAddress.ValidIffAllFilled` | src/app/manage/new-address/new-address.component.ts:77-85 | the form is valid iff none of the six required fields is empty |
| `NewAddress.EmptyFieldReported` | src/app/manage/new-address/new-address.component.ts:125-163 | an empty field is in the error map under its label with only the required message |
| `NewAddress.NewAddressComponent.constructor` | src/app/manage/new-address/new-address.component.ts:25-28 | no form, empty client id, not editing, not submitting |
| `NewAddress.NewAddressComponent.NgOnInit` | src/app/manage/new-address/new-address.component.ts:30-39 | no client id in the route: one error alert, no form, no edit check; otherwise builds the form with a clock-based id, then runs the edit check |
| `NewAddress.NewAddressComponent.CheckEditMode` | src/app/manage/new-address/new-address.component.ts:88-94 | a truthy route id sets edit mode and subscribes to `clients/{clientID}/addresses/{id}`; otherwise nothing |
| `NewAddress.NewAddressComponent.OnAddressLoaded` | src/app/manage/new-address/new-address.component.ts:96-105 | a record patches the form; `null` is ignored; the shape is kept |
| `NewAddress.NewAddressComponent.OnLoadError` | src/app/manage/new-address/new-address.component.ts:106-109 | one generic error alert |
| `NewAddress.NewAddressComponent.ShowFormErrors` | src/app/manage/new-address/new-address.component.ts:113-123 | one error alert with the text of the form's error map |
| `NewAddress.NewAddressComponent.SaveAddress` | src/app/manage/new-address/new-address.component.ts:46-56 | invalid: exactly one error alert and no write; valid: `isSubmitting` and one write of the whole form value at `clients/{clientID}/addresses/{form id}` |
| `NewAddress.NewAddressComponent.OnSaveDone` | src/app/manage/new-address/new-address.component.ts:57-69 | `isSubmitting` ends; success confirms with the updated text iff editing, else the created text; failure raises the generic error |

## Left out

- Angular dependency injection, lifecycle wiring, NgModules and routing: configuration with no logic of its own.
- rxjs streams: subscriptions, `takeUntil` teardown, the `debounceTime` no-op search subscription, and the second subscription `deleteAddress` opens without closing the first. Each stream's answer is modelled as one call of a completion method.
- Update in place and aliasing: `transformClients` and `transformAddresses` mutate the store's records. The model returns new values, so sharing of a record between views is not represented.
- `Object.values` and `Object.entries` order: objects are modelled as entry lists in enumeration order. JavaScript's rule that integer-like keys come first is not modelled. Keys of the error map are labels or control names, none of them integer-like.
- `Validators.email`: its acceptance rule is the parameter `emailOk` of the client and employee components.
- `Forms.Messages`: the `minlength` and `maxlength` messages are modelled, but no form attaches those validators, so `Forms.ErrorsOf` never sets them.
- `Text.ToLower`: lower-cases ASCII letters only, because Unicode case mapping is not modelled.
- `Text.IsBlank`: `Text.Trim` removes the ECMAScript white-space and line-terminator characters, as a fixed list of code points.
- `generateOtkId` and `Date.now()`: the generated id and the clock are parameters (`generatedId`, `now`).
- `DB_PATHS.EMPLOYEE_BY_ID`, `ALERT_MESSAGES.EMPLOYEE_CREATED` and `EMPLOYEE_UPDATED` are used by the employee screen but not defined in constants.ts. They are constructor parameters of `NewEmployee.NewEmployeeComponent`.
- `Forms.EmptyInput`: a `Nested(Falsy)` value is judged non-empty, although Angular treats `null`, `undefined` and `''` as empty. `Falsy` also covers `0` and `false`, which are not empty. A form control's own null is `Null` and its empty string `Str("")`, and the only control holding addresses has no validators.
- `Forms.TemplateText`: a list renders as its items' `[object Object]` texts joined by commas, and any other object as `[object Object]`. The `Falsy` and `Primitive` address values stand for several JavaScript values (`undefined`, `false`, `0`, numbers, ...) whose texts differ; they too render as `[object Object]`, which is right only for objects. Number and boolean ids are not distinguished.
- `NewAddress.NewAddressComponent.SaveAddress` requires a built form. Calling it before the form is built throws in the source, and that case is not modelled.
- `ClientDetail.ClientComponent.OnClientData`: a `null` record from the store is not modelled. The source would throw in `transformAddresses`.
- Console logging, `onBlur`/`onTouched`, `registerOnChange`, `registerOnTouched` and `setDisabledState`: they only forward callbacks or set the DOM `disabled` flag.
- HTML rendering of the alert text, `onImageError` and `goBack`: presentation and navigation only.
- `NewClient.FreshFormShowsRawNames`: proves that the raw-name entries (`enterpriseName`, `rnc`, `imageUrl`) are in the alert. It does not write out the complete alert text of a fresh form.
- The client-control spec file only checks that the component is created.

## Findings

| source | as written | input that shows it | evidently intended | confidence | as-written member | corrected member |
|---|---|---|---|---|---|---|
| src/app/utils/phone-mask.directive.ts:108-110 with src/app/manage/new-employee/new-employee.component.ts:75-78 | the mask the employee module declares writes `(AAA)-PPP-LLLL`, or bare digits after Backspace, but the employee phone validator accepts only `(AAA) PPP-LLLL` | digits `8091234567` become `(809)-123-4567`, which fails `^\(\d{3}\) \d{3}-\d{4}$`, so `saveEmployee` can never save a masked phone | the mask writes a space after the area, `(809) 123-4567`, the format the validator and its error message `(XXX) XXX-XXXX` name | not executed | `NewEmployee.MaskedPhoneBlocksSave` | `NewEmployee.GroupedPhonePasses` |

`NewEmployee.MaskedPhoneBlocksSave` rests on `NewEmployee.MaskOutputNeverGrouped` and `NewEmployee.DigitsNeverGrouped`. `NewEmployee.GroupedPhonePasses` rests on `PhoneMask.FormatPhoneGrouped` and `NewEmployee.GroupedMaskMatches`. The source's formatter and the corrected one are the same mask, `PhoneMask.FormatPhoneWith`, with `-` and with a space after the area.
