/**
 * The citizen's report wizard (client/src/components/ReportForm.jsx): a
 * four-step machine (category, details, location, photo and submit) whose
 * "next" button is gated by per-step validation while the stepper and the
 * mobile bar jump to a step directly, the submit guard that marks the
 * failing fields, the multipart payload it sends, and the category-change
 * and reset handlers.
 */
module ReportForm {
  import opened Wrappers
  import opened Text
  import opened ClientUtils

  // ---------------------------------------------------------------------------
  // Form data
  // ---------------------------------------------------------------------------

  /** The `form` state cell; a coordinate is None unless it is a finite number. */
  datatype FormState = FormState(
    category: string,
    address: string,
    whatsapp: string,
    firstName: string,
    lastName: string,
    lat: Option<real>,
    lng: Option<real>)

  /** The `fields` state cell: the guided-description answers. */
  datatype GuidedFields = GuidedFields(issue: string, timeframe: string, impact: string, details: string)

  /** The keys of the `touched` record. */
  datatype Key =
    | CategoryKey | IssueKey | TimeframeKey | ImpactKey | LocationKey
    | DetailsKey | AddressKey | WhatsappKey | FirstNameKey | LastNameKey

  /** The five keys that validation can flag. */
  const GuardedKeys: set<Key> := {CategoryKey, IssueKey, TimeframeKey, ImpactKey, LocationKey}

  function InitialForm(): FormState
  {
    FormState(Categories[0].id, "", "", "", "", None, None)
  }

  const InitialFields := GuidedFields("", "", "", "")

  const MinIssueLength := 5
  const MinTimeframeLength := 3
  const MinImpactLength := 3

  predicate InvalidCategory(form: FormState) { form.category == "" }
  predicate InvalidIssue(fields: GuidedFields) { |Trim(fields.issue)| < MinIssueLength }
  predicate InvalidTimeframe(fields: GuidedFields) { |Trim(fields.timeframe)| < MinTimeframeLength }
  predicate InvalidImpact(fields: GuidedFields) { |Trim(fields.impact)| < MinImpactLength }
  predicate InvalidLocation(form: FormState) { form.lat.None? || form.lng.None? }

  /** Whether the validation of `key` fails; keys without a rule never fail. */
  predicate Fails(key: Key, form: FormState, fields: GuidedFields)
  {
    match key
    case CategoryKey => InvalidCategory(form)
    case IssueKey => InvalidIssue(fields)
    case TimeframeKey => InvalidTimeframe(fields)
    case ImpactKey => InvalidImpact(fields)
    case LocationKey => InvalidLocation(form)
    case _ => false
  }

  /** The freshly loaded form is invalid: its guided fields are empty and no
      point has been picked. */
  lemma InitialFormIsInvalid()
    ensures Fails(IssueKey, InitialForm(), InitialFields)
    ensures Fails(LocationKey, InitialForm(), InitialFields)
    ensures !Fails(CategoryKey, InitialForm(), InitialFields)
  {
    assert Trim(InitialFields.issue) == "";
  }

  // ---------------------------------------------------------------------------
  // The step machine
  // ---------------------------------------------------------------------------

  /** The index of the last of the four steps (`steps.length - 1`). */
  const LastStep := 3

  type StepIndex = s: int | 0 <= s <= LastStep

  /** Whether `handleNext` refuses to leave `step`. */
  predicate NextBlocked(step: int, form: FormState, fields: GuidedFields)
  {
    || (step == 0 && InvalidCategory(form))
    || (step == 1 && (InvalidIssue(fields) || InvalidTimeframe(fields) || InvalidImpact(fields)))
    || (step == 2 && InvalidLocation(form))
  }

  /** The step after `handleNext`. */
  function NextStep(step: int, form: FormState, fields: GuidedFields): (r: int)
    ensures 0 <= step <= LastStep ==> 0 <= r <= LastStep
    ensures NextBlocked(step, form, fields) ==> r == step
    ensures !NextBlocked(step, form, fields) && step < LastStep ==> r == step + 1
    ensures !NextBlocked(step, form, fields) && step >= LastStep ==> r == LastStep
  {
    if NextBlocked(step, form, fields) then step
    else if step + 1 < LastStep then step + 1 else LastStep
  }

  /** The step after `handleBack`. */
  function BackStep(step: int): (r: int)
    ensures 0 <= step <= LastStep ==> 0 <= r <= LastStep
    ensures step > 0 ==> r == step - 1
    ensures step <= 0 ==> r == 0
  {
    if step - 1 > 0 then step - 1 else 0
  }

  /** What the user can do to the step: press next (with the form as it is
      at that moment), press back, or jump to a step from the stepper
      (any of the four) or the mobile bar (map: 2, photo: 3). */
  datatype StepEvent =
    | Next(form: FormState, fields: GuidedFields)
    | Back
    | Jump(target: int)

  function ApplyStep(step: int, event: StepEvent): int
  {
    match event
    case Next(form, fields) => NextStep(step, form, fields)
    case Back => BackStep(step)
    case Jump(target) => target
  }

  function RunSteps(step: int, events: seq<StepEvent>): int
    decreases |events|
  {
    if events == [] then step else RunSteps(ApplyStep(step, events[0]), events[1..])
  }

  /** Every jump the page offers targets a step that exists. */
  predicate OfferedJumps(events: seq<StepEvent>)
  {
    forall e | e in events && e.Jump? :: 0 <= e.target <= LastStep
  }

  /** The step stays within 0..3 under any sequence of next, back and the
      jumps the page offers. */
  lemma {:induction false} StepStaysInRange(step: int, events: seq<StepEvent>)
    requires 0 <= step <= LastStep
    requires OfferedJumps(events)
    ensures 0 <= RunSteps(step, events) <= LastStep
    decreases |events|
  {
    if events != [] {
      var s := ApplyStep(step, events[0]);
      assert events[0] in events;
      assert OfferedJumps(events[1..]) by {
        forall e | e in events[1..] && e.Jump? ensures 0 <= e.target <= LastStep {
          assert e in events;
        }
      }
      StepStaysInRange(s, events[1..]);
    }
  }

  /** A jump reaches the last step from the first even while the form is
      the initial, invalid one: reaching step 3 does not mean the form is
      valid. */
  lemma JumpsBypassGates()
    ensures RunSteps(0, [Jump(LastStep)]) == LastStep
    ensures NextBlocked(1, InitialForm(), InitialFields)
    ensures InvalidLocation(InitialForm())
  {
    assert [Jump(LastStep)][1..] == [];
    InitialFormIsInvalid();
  }

  /** With "next" alone and the form left as it is, the step never
      decreases, and every step it leaves behind passed its gate. */
  lemma {:induction false} NextOnlyPassesGates(step: int, form: FormState, fields: GuidedFields, events: seq<StepEvent>)
    requires 0 <= step <= LastStep
    requires forall e | e in events :: e == Next(form, fields)
    ensures step <= RunSteps(step, events) <= LastStep
    ensures forall j | step <= j < RunSteps(step, events) :: !NextBlocked(j, form, fields)
    decreases |events|
  {
    if events != [] {
      assert events[0] in events;
      var s := ApplyStep(step, events[0]);
      assert forall e | e in events[1..] :: e in events;
      NextOnlyPassesGates(s, form, fields, events[1..]);
      assert RunSteps(step, events) == RunSteps(s, events[1..]);
    }
  }

  /** Reaching the last step from the first by "next" alone means the
      category, the guided fields and the location were all valid. */
  lemma ReachingLastStepByNextValidates(form: FormState, fields: GuidedFields, events: seq<StepEvent>)
    requires forall e | e in events :: e == Next(form, fields)
    requires RunSteps(0, events) == LastStep
    ensures forall k | k in GuardedKeys :: !Fails(k, form, fields)
  {
    NextOnlyPassesGates(0, form, fields, events);
    assert !NextBlocked(0, form, fields) && !NextBlocked(1, form, fields) && !NextBlocked(2, form, fields);
  }

  // ---------------------------------------------------------------------------
  // The submit payload
  // ---------------------------------------------------------------------------

  /** The multipart field names the form sends. */
  datatype FieldName =
    | CategoryField | DescriptionField | AddressField | FirstNameField | LastNameField
    | LatField | LngField | PhotoField

  /** The name each field carries on the wire. */
  function WireName(name: FieldName): string
  {
    match name
    case CategoryField => "category"
    case DescriptionField => "description"
    case AddressField => "address"
    case FirstNameField => "reporterFirstName"
    case LastNameField => "reporterLastName"
    case LatField => "lat"
    case LngField => "lng"
    case PhotoField => "photo"
  }

  /** One `FormData.append`: a text field, or the photo file. */
  datatype FormEntry = TextEntry(name: FieldName, value: string) | FileEntry(name: FieldName, file: string)

  predicate HasEntry(entries: seq<FormEntry>, name: FieldName)
  {
    exists e | e in entries :: e.name == name
  }

  function TrimmedFields(fields: GuidedFields): (r: GuidedFields)
    ensures r.issue == Trim(fields.issue) && r.timeframe == Trim(fields.timeframe)
    ensures r.impact == Trim(fields.impact) && r.details == Trim(fields.details)
    ensures Trim(r.issue) == r.issue && Trim(r.timeframe) == r.timeframe
    ensures Trim(r.impact) == r.impact && Trim(r.details) == r.details
  {
    TrimIdempotent(fields.issue);
    TrimIdempotent(fields.timeframe);
    TrimIdempotent(fields.impact);
    TrimIdempotent(fields.details);
    GuidedFields(Trim(fields.issue), Trim(fields.timeframe), Trim(fields.impact), Trim(fields.details))
  }

  /** The five entries every submission carries, in order. */
  function RequiredEntries(category: string, description: string, address: string,
                           firstName: string, lastName: string): seq<FormEntry>
  {
    [
      TextEntry(CategoryField, category),
      TextEntry(DescriptionField, description),
      TextEntry(AddressField, address),
      TextEntry(FirstNameField, firstName),
      TextEntry(LastNameField, lastName)
    ]
  }

  /** The coordinate entry for a finite value, none otherwise. */
  function CoordinateEntry(name: FieldName, value: Option<real>, numberText: real -> string): seq<FormEntry>
  {
    if value.Some? then [TextEntry(name, numberText(value.value))] else []
  }

  /** The file entry for a set photo, none otherwise. */
  function PhotoEntry(photo: Option<string>): seq<FormEntry>
  {
    if photo.Some? then [FileEntry(PhotoField, photo.value)] else []
  }

  /** The coordinates that are finite, then the photo if one is set. */
  function OptionalEntries(form: FormState, photo: Option<string>, numberText: real -> string): seq<FormEntry>
  {
    CoordinateEntry(LatField, form.lat, numberText) + CoordinateEntry(LngField, form.lng, numberText) + PhotoEntry(photo)
  }

  /** The entries `handleSubmit` appends, in order. `compose` stands for
      the guided-description builder and `numberText` for `String` of a
      number. */
  function SubmitPayload(form: FormState, fields: GuidedFields, photo: Option<string>,
                         compose: (string, GuidedFields) -> string, numberText: real -> string): seq<FormEntry>
  {
    RequiredEntries(form.category, compose(form.category, TrimmedFields(fields)),
                    Trim(form.address), Trim(form.firstName), Trim(form.lastName))
    + OptionalEntries(form, photo, numberText)
  }

  /** The payload carries the category, the description built from the
      trimmed guided fields, and the trimmed address and names, and has
      between five and eight entries. */
  lemma SubmitPayloadRequired(form: FormState, fields: GuidedFields, photo: Option<string>,
                              compose: (string, GuidedFields) -> string, numberText: real -> string)
    ensures var r := SubmitPayload(form, fields, photo, compose, numberText);
            && 5 <= |r| <= 8
            && TextEntry(CategoryField, form.category) in r
            && TextEntry(DescriptionField, compose(form.category, TrimmedFields(fields))) in r
            && TextEntry(AddressField, Trim(form.address)) in r
            && TextEntry(FirstNameField, Trim(form.firstName)) in r
            && TextEntry(LastNameField, Trim(form.lastName)) in r
  {
  }

  /** Whether an entry is one of the five every submission carries. */
  predicate IsRequiredEntry(e: FormEntry)
  {
    e.TextEntry? && e.name != LatField && e.name != LngField && e.name != PhotoField
  }

  lemma RequiredEntriesAreRequired(category: string, description: string, address: string,
                                   firstName: string, lastName: string)
    ensures forall e | e in RequiredEntries(category, description, address, firstName, lastName) :: IsRequiredEntry(e)
  {
  }

  /** Appending the optional entries to required ones gives a coordinate
      exactly when it is finite. */
  lemma CoordinatesAfter(required: seq<FormEntry>, form: FormState, photo: Option<string>, numberText: real -> string)
    requires forall e | e in required :: IsRequiredEntry(e)
    ensures var r := required + OptionalEntries(form, photo, numberText);
            && (HasEntry(r, LatField) <==> form.lat.Some?)
            && (HasEntry(r, LngField) <==> form.lng.Some?)
  {
    var lat, lng, file := CoordinateEntry(LatField, form.lat, numberText),
                          CoordinateEntry(LngField, form.lng, numberText), PhotoEntry(photo);
    assert required + OptionalEntries(form, photo, numberText) == required + (lat + (lng + file));
    HasEntryConcat(lng, file);
    HasEntryConcat(lat, lng + file);
    HasEntryConcat(required, lat + (lng + file));
  }

  /** Appending the optional entries to required ones gives a file exactly
      when a photo is set, and that file is the photo. */
  lemma PhotoAfter(required: seq<FormEntry>, form: FormState, photo: Option<string>, numberText: real -> string)
    requires forall e | e in required :: IsRequiredEntry(e)
    ensures var r := required + OptionalEntries(form, photo, numberText);
            && (HasEntry(r, PhotoField) <==> photo.Some?)
            && (forall e | e in r && e.FileEntry? :: e.name == PhotoField && photo == Some(e.file))
  {
    var lat, lng, file := CoordinateEntry(LatField, form.lat, numberText),
                          CoordinateEntry(LngField, form.lng, numberText), PhotoEntry(photo);
    var r := required + OptionalEntries(form, photo, numberText);
    assert r == (required + (lat + lng)) + file;
    assert forall e | e in required + (lat + lng) :: e.TextEntry?;
    HasEntryConcat(lat, lng);
    HasEntryConcat(required, lat + lng);
    HasEntryConcat(required + (lat + lng), file);
  }

  /** An entry of a concatenation comes from one of its two parts. */
  lemma HasEntryConcat(a: seq<FormEntry>, b: seq<FormEntry>)
    ensures forall name :: HasEntry(a + b, name) <==> HasEntry(a, name) || HasEntry(b, name)
  {
  }

  /** The payload carries a coordinate exactly when that coordinate is
      finite and a file exactly when a photo is set. */
  lemma SubmitPayloadOptional(form: FormState, fields: GuidedFields, photo: Option<string>,
                              compose: (string, GuidedFields) -> string, numberText: real -> string)
    ensures var r := SubmitPayload(form, fields, photo, compose, numberText);
            && (HasEntry(r, LatField) <==> form.lat.Some?)
            && (HasEntry(r, LngField) <==> form.lng.Some?)
            && (HasEntry(r, PhotoField) <==> photo.Some?)
            && (forall e | e in r && e.FileEntry? :: e.name == PhotoField && photo == Some(e.file))
  {
    var required := RequiredEntries(form.category, compose(form.category, TrimmedFields(fields)),
                                    Trim(form.address), Trim(form.firstName), Trim(form.lastName));
    RequiredEntriesAreRequired(form.category, compose(form.category, TrimmedFields(fields)),
                               Trim(form.address), Trim(form.firstName), Trim(form.lastName));
    CoordinatesAfter(required, form, photo, numberText);
    PhotoAfter(required, form, photo, numberText);
  }

  /** The validated keys whose rule fails. */
  function MissingKeys(form: FormState, fields: GuidedFields): set<Key>
  {
    set k | k in GuardedKeys && Fails(k, form, fields)
  }

  /** The submit guard and the step gates agree: nothing is missing exactly
      when "next" would pass each of the first three steps. */
  lemma GuardMatchesGates(form: FormState, fields: GuidedFields)
    ensures MissingKeys(form, fields) == {} <==>
            !NextBlocked(0, form, fields) && !NextBlocked(1, form, fields) && !NextBlocked(2, form, fields)
  {
    if MissingKeys(form, fields) == {} {
      forall k | k in GuardedKeys ensures !Fails(k, form, fields) {
        assert k !in MissingKeys(form, fields);
      }
    } else {
      var k :| k in MissingKeys(form, fields);
    }
  }

  /** The `missing` record of `handleSubmit`, filled check by check: exactly
      the validated keys whose rule fails. */
  method CollectMissing(form: FormState, fields: GuidedFields) returns (missing: set<Key>)
    ensures missing == MissingKeys(form, fields)
  {
    missing := {};
    if form.category == "" { missing := missing + {CategoryKey}; }
    if |Trim(fields.issue)| < MinIssueLength { missing := missing + {IssueKey}; }
    if |Trim(fields.timeframe)| < MinTimeframeLength { missing := missing + {TimeframeKey}; }
    if |Trim(fields.impact)| < MinImpactLength { missing := missing + {ImpactKey}; }
    if form.lat.None? || form.lng.None? { missing := missing + {LocationKey}; }
    assert forall k :: k in missing <==> k in GuardedKeys && Fails(k, form, fields);
  }

  /** The `FormData` of `handleSubmit`, appended entry by entry. */
  method BuildPayload(form: FormState, fields: GuidedFields, photo: Option<string>,
                      compose: (string, GuidedFields) -> string, numberText: real -> string)
    returns (data: seq<FormEntry>)
    ensures data == SubmitPayload(form, fields, photo, compose, numberText)
  {
    var description := compose(form.category, TrimmedFields(fields));
    var address, firstName, lastName := Trim(form.address), Trim(form.firstName), Trim(form.lastName);
    ghost var required := RequiredEntries(form.category, description, address, firstName, lastName);
    data := [];
    data := data + [TextEntry(CategoryField, form.category)];
    assert data == required[..1];
    data := data + [TextEntry(DescriptionField, description)];
    assert data == required[..2];
    data := data + [TextEntry(AddressField, address)];
    assert data == required[..3];
    data := data + [TextEntry(FirstNameField, firstName)];
    assert data == required[..4];
    data := data + [TextEntry(LastNameField, lastName)];
    assert data == required;
    data := data + CoordinateEntry(LatField, form.lat, numberText);
    data := data + CoordinateEntry(LngField, form.lng, numberText);
    data := data + PhotoEntry(photo);
  }

  // ---------------------------------------------------------------------------
  // The component's state
  // ---------------------------------------------------------------------------

  /** The `success` panel: the saved report, its message and its link. */
  datatype SuccessPanel = SuccessPanel(report: ClientReport, message: string, url: string)

  const IncompleteMessage := "Completa i campi evidenziati in rosso."
  const SubmitFallbackMessage := "Errore durante invio."

  class ReportFormState {
    var form: FormState
    var fields: GuidedFields
    var photo: Option<string>
    var photoPreview: string
    var submitting: bool
    var error: string
    var success: Option<SuccessPanel>
    var copied: bool
    var touched: set<Key>
    var step: int
    /** The form as it was when the pending request was sent. */
    var submittedForm: FormState

    ghost predicate Valid()
      reads this
    {
      0 <= step <= LastStep
    }

    constructor ()
      ensures Valid()
      ensures form == InitialForm() && fields == InitialFields && step == 0
      ensures photo == None && photoPreview == "" && !submitting && error == ""
      ensures success == None && !copied && touched == {}
    {
      form := InitialForm();
      fields := InitialFields;
      photo := None;
      photoPreview := "";
      submitting := false;
      error := "";
      success := None;
      copied := false;
      touched := {};
      step := 0;
      submittedForm := InitialForm();
    }

    /** `handleNext`: marks the five validated keys touched and moves on
        unless the current step's gate fails. */
    method HandleNext()
      requires Valid()
      modifies this
      ensures Valid()
      ensures touched == old(touched) + GuardedKeys
      ensures step == NextStep(old(step), form, fields)
      ensures form == old(form) && fields == old(fields) && error == old(error)
      ensures photo == old(photo) && photoPreview == old(photoPreview) && success == old(success)
      ensures submitting == old(submitting) && copied == old(copied) && submittedForm == old(submittedForm)
    {
      touched := touched + GuardedKeys;
      step := NextStep(step, form, fields);
    }

    /** `handleBack`. */
    method HandleBack()
      requires Valid()
      modifies this
      ensures Valid()
      ensures step == BackStep(old(step))
      ensures form == old(form) && fields == old(fields) && touched == old(touched)
      ensures photo == old(photo) && photoPreview == old(photoPreview) && success == old(success)
      ensures error == old(error) && submitting == old(submitting) && copied == old(copied)
      ensures submittedForm == old(submittedForm)
    {
      step := BackStep(step);
    }

    /** A stepper button or the mobile bar's map or photo button: the step
        changes without any validation. */
    method JumpTo(target: StepIndex)
      requires Valid()
      modifies this
      ensures Valid()
      ensures step == target
      ensures form == old(form) && fields == old(fields) && touched == old(touched)
      ensures photo == old(photo) && photoPreview == old(photoPreview) && success == old(success)
      ensures error == old(error) && submitting == old(submitting) && copied == old(copied)
      ensures submittedForm == old(submittedForm)
    {
      step := target;
    }

    /** `handleCategoryChange`: sets the category, empties the guided
        fields, clears the error and marks the category touched. */
    method HandleCategoryChange(value: string)
      requires Valid()
      modifies this
      ensures Valid()
      ensures form == old(form).(category := value)
      ensures fields == InitialFields
      ensures error == ""
      ensures touched == old(touched) + {CategoryKey}
      ensures step == old(step) && photo == old(photo) && photoPreview == old(photoPreview)
      ensures success == old(success) && submitting == old(submitting) && copied == old(copied)
      ensures submittedForm == old(submittedForm)
    {
      form := form.(category := value);
      fields := InitialFields;
      error := "";
      touched := touched + {CategoryKey};
    }

    /** `handleReset`. */
    method HandleReset()
      requires Valid()
      modifies this
      ensures Valid()
      ensures form == InitialForm() && fields == InitialFields && step == 0
      ensures photo == None && photoPreview == "" && success == None
      ensures error == "" && !copied && touched == {}
      ensures submitting == old(submitting) && submittedForm == old(submittedForm)
    {
      form := InitialForm();
      fields := InitialFields;
      photo := None;
      photoPreview := "";
      success := None;
      error := "";
      copied := false;
      touched := {};
      step := 0;
    }

    /** `handlePhotoRemove`. */
    method HandlePhotoRemove()
      requires Valid()
      modifies this
      ensures Valid()
      ensures photo == None && photoPreview == ""
      ensures form == old(form) && fields == old(fields) && step == old(step)
      ensures error == old(error) && success == old(success) && submitting == old(submitting)
      ensures copied == old(copied) && touched == old(touched) && submittedForm == old(submittedForm)
    {
      photo := None;
      photoPreview := "";
    }

    /** `handleSubmit` up to the request: returns the entries sent, or None
        when validation fails, in which case exactly the failing keys are
        added to `touched`. */
    method HandleSubmit(compose: (string, GuidedFields) -> string, numberText: real -> string)
      returns (request: Option<seq<FormEntry>>)
      requires Valid()
      modifies this
      ensures Valid()
      ensures touched == old(touched) + MissingKeys(old(form), old(fields))
      ensures request == if MissingKeys(old(form), old(fields)) == {} then Some(SubmitPayload(old(form), old(fields), old(photo), compose, numberText)) else None
      ensures error == if request.None? then IncompleteMessage else ""
      ensures submitting == (request.Some? || old(submitting))
      ensures submittedForm == if request.Some? then old(form) else old(submittedForm)
      ensures !copied
      ensures form == old(form) && fields == old(fields) && photo == old(photo)
      ensures photoPreview == old(photoPreview) && step == old(step) && success == old(success)
    {
      error := "";
      copied := false;
      var missing := CollectMissing(form, fields);
      if missing != {} {
        touched := touched + missing;
        error := IncompleteMessage;
        request := None;
        return;
      }
      var data := BuildPayload(form, fields, photo, compose, numberText);
      submitting := true;
      submittedForm := form;
      request := Some(data);
    }

    /** The rest of `handleSubmit`, once the server has answered: on success
        the message and link are built from the saved report and the form
        as submitted; on failure the error shows the server's message or a
        fallback. */
    method CompleteSubmit(reply: Result<ClientReport, string>, fmt: Formatters)
      requires Valid()
      modifies this
      ensures Valid()
      ensures !submitting
      ensures reply.Success? ==>
                var message := BuildWhatsappMessage(reply.value, submittedForm.category, fmt);
                success == Some(SuccessPanel(reply.value, message,
                                             BuildWhatsappUrl(submittedForm.whatsapp, message, fmt.encodeUriComponent)))
                && error == old(error)
      ensures reply.Failure? ==>
                success == old(success) && error == (if reply.error != "" then reply.error else SubmitFallbackMessage)
      ensures form == old(form) && fields == old(fields) && step == old(step) && touched == old(touched)
      ensures photo == old(photo) && photoPreview == old(photoPreview) && copied == old(copied)
      ensures submittedForm == old(submittedForm)
    {
      match reply {
        case Success(report) =>
          var message := BuildWhatsappMessage(report, submittedForm.category, fmt);
          var url := BuildWhatsappUrl(submittedForm.whatsapp, message, fmt.encodeUriComponent);
          success := Some(SuccessPanel(report, message, url));
        case Failure(message) =>
          error := if message != "" then message else SubmitFallbackMessage;
      }
      submitting := false;
    }
  }
}
