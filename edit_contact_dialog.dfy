/**
 * The contact edit dialog: seeding the form from a contact, the field handlers,
 * required-field validation, sentinel normalisation, role gating of the cell and
 * leader fields, and the outcome of a submission.
 */
module ContactEditing {
  import opened Common

  // ---------------------------------------------------------------------------
  // Records
  // ---------------------------------------------------------------------------

  /**
   * A contact as the dialog receives it. Every field the dialog reads may be
   * `null` or `undefined` (`None`); `id` is the key of the update call.
   */
  datatype Contact = Contact(
    id: string,
    name: Option<string>,
    whatsapp: Option<string>,
    neighborhood: Option<string>,
    cityId: Option<string>,
    cellId: Option<string>,
    ministryId: Option<string>,
    status: Option<string>,
    encounterWithGod: Option<bool>,
    baptized: Option<bool>,
    pipelineStageId: Option<string>,
    age: Option<int>,
    birthDate: Option<string>,
    referredBy: Option<string>,
    photoUrl: Option<string>,
    founder: Option<bool>,
    leaderId: Option<string>)

  /** The local form mirror (`formData`): every field always defined. */
  datatype Form = Form(
    name: string,
    whatsapp: string,
    neighborhood: string,
    cityId: string,
    cellId: string,
    ministryId: string,
    status: string,
    encounterWithGod: bool,
    baptized: bool,
    pipelineStageId: string,
    age: Option<int>,
    birthDate: string,
    referredBy: string,
    photoUrl: string,
    founder: bool,
    leaderId: string)

  /** The record sent to the update call: the six relational fields are nullable. */
  datatype Payload = Payload(
    name: string,
    whatsapp: string,
    neighborhood: string,
    cityId: Option<string>,
    cellId: Option<string>,
    ministryId: Option<string>,
    status: string,
    encounterWithGod: bool,
    baptized: bool,
    pipelineStageId: Option<string>,
    age: Option<int>,
    birthDate: string,
    referredBy: Option<string>,
    photoUrl: string,
    founder: bool,
    leaderId: Option<string>)

  // ---------------------------------------------------------------------------
  // JavaScript truthiness
  // ---------------------------------------------------------------------------

  /** `value || ''` for a string that may be absent. */
  function OrEmpty(value: Option<string>): (s: string)
    ensures s == "" <==> value == None || value == Some("")
    ensures s != "" ==> value == Some(s)
  {
    match value
    case None => ""
    case Some(v) => v
  }

  /** `Boolean(value)` for a flag that may be absent. */
  function Truthy(value: Option<bool>): (b: bool)
    ensures b <==> value == Some(true)
  {
    match value
    case None => false
    case Some(v) => v
  }

  /** `value || null` for a number: zero is falsy too. */
  function NonZeroOrNull(value: Option<int>): (r: Option<int>)
    ensures r == None <==> value == None || value == Some(0)
    ensures r != None ==> r == value
  {
    if value == Some(0) then None else value
  }

  /** `Defaulted(field, source)`: the form field holds the source value, or `''` when it is absent. */
  ghost predicate Defaulted(field: string, source: Option<string>) {
    (source.Some? ==> field == source.value) && (source.None? ==> field == "")
  }

  // ---------------------------------------------------------------------------
  // Seeding the form
  // ---------------------------------------------------------------------------

  /** The form before any contact was loaded: every text empty, status "pending". */
  function InitialForm(): (f: Form)
    ensures f.status == "pending" && f.age == None
    ensures !f.encounterWithGod && !f.baptized && !f.founder
    ensures Validate(f) == Missing(NameField)
  {
    Form("", "", "", "", "", "", "pending", false, false, "", None, "", "", "", false, "")
  }

  /** The form seeded from a contact: every field explicitly defaulted. */
  function SeedForm(c: Contact): (f: Form)
    ensures Defaulted(f.name, c.name) && Defaulted(f.whatsapp, c.whatsapp)
    ensures Defaulted(f.neighborhood, c.neighborhood) && Defaulted(f.cityId, c.cityId)
    ensures Defaulted(f.cellId, c.cellId) && Defaulted(f.ministryId, c.ministryId)
    ensures Defaulted(f.pipelineStageId, c.pipelineStageId) && Defaulted(f.birthDate, c.birthDate)
    ensures Defaulted(f.referredBy, c.referredBy) && Defaulted(f.photoUrl, c.photoUrl)
    ensures Defaulted(f.leaderId, c.leaderId)
    ensures f.status != ""
    ensures c.status.Some? && c.status.value != "" ==> f.status == c.status.value
    ensures f.status != "pending" ==> c.status == Some(f.status)
    ensures f.encounterWithGod <==> c.encounterWithGod == Some(true)
    ensures f.baptized <==> c.baptized == Some(true)
    ensures f.founder <==> c.founder == Some(true)
    ensures f.age != Some(0)
    ensures c.age.Some? && c.age.value != 0 ==> f.age == c.age
    ensures f.age.Some? ==> f.age == c.age
  {
    Form(
      name := OrEmpty(c.name),
      whatsapp := OrEmpty(c.whatsapp),
      neighborhood := OrEmpty(c.neighborhood),
      cityId := OrEmpty(c.cityId),
      cellId := OrEmpty(c.cellId),
      ministryId := OrEmpty(c.ministryId),
      status := if OrEmpty(c.status) == "" then "pending" else OrEmpty(c.status),
      encounterWithGod := Truthy(c.encounterWithGod),
      baptized := Truthy(c.baptized),
      pipelineStageId := OrEmpty(c.pipelineStageId),
      age := NonZeroOrNull(c.age),
      birthDate := OrEmpty(c.birthDate),
      referredBy := OrEmpty(c.referredBy),
      photoUrl := OrEmpty(c.photoUrl),
      founder := Truthy(c.founder),
      leaderId := OrEmpty(c.leaderId))
  }

  // ---------------------------------------------------------------------------
  // Select controls and their sentinels
  // ---------------------------------------------------------------------------

  /** The six select controls of the dialog. */
  datatype SelectControl = CitySelect | NeighborhoodSelect | LeaderSelect | CellSelect | ReferralSelect | StageSelect

  /** The reserved "nothing selected" option of each select control. */
  function Placeholder(control: SelectControl): (p: string)
    ensures p != ""
  {
    match control
    case CitySelect => "no-city"
    case NeighborhoodSelect => "no-neighborhood"
    case LeaderSelect => "no-leader"
    case CellSelect => "no-cell"
    case ReferralSelect => "no-referral"
    case StageSelect => "no-stage"
  }

  /** What a select handler stores for the chosen option: the placeholder becomes `''`. */
  function Stored(control: SelectControl, chosen: string): (v: string)
    ensures v == "" <==> chosen == Placeholder(control) || chosen == ""
    ensures v != "" ==> v == chosen
    ensures v != Placeholder(control)
  {
    if chosen == Placeholder(control) then "" else chosen
  }

  /** The option a select shows for a form value (`value || placeholder`). */
  function Displayed(control: SelectControl, value: string): (shown: string)
    ensures shown != ""
    ensures value != Placeholder(control) ==> Stored(control, shown) == value
    ensures value == Placeholder(control) ==> Stored(control, shown) == ""
  {
    if value == "" then Placeholder(control) else value
  }

  /** Which form field a select writes. */
  function WithSelected(f: Form, control: SelectControl, v: string): Form {
    match control
    case CitySelect => f.(cityId := v, neighborhood := "")
    case NeighborhoodSelect => f.(neighborhood := v)
    case LeaderSelect => f.(leaderId := v)
    case CellSelect => f.(cellId := v)
    case ReferralSelect => f.(referredBy := v)
    case StageSelect => f.(pipelineStageId := v)
  }

  /** The form a select handler produces from the previous form and the chosen option. */
  function AfterSelect(f: Form, control: SelectControl, chosen: string): (g: Form)
    ensures control == CitySelect ==> g == f.(cityId := Stored(control, chosen), neighborhood := "")
    ensures control == NeighborhoodSelect ==> g == f.(neighborhood := Stored(control, chosen))
    ensures control == LeaderSelect ==> g == f.(leaderId := Stored(control, chosen))
    ensures control == CellSelect ==> g == f.(cellId := Stored(control, chosen))
    ensures control == ReferralSelect ==> g == f.(referredBy := Stored(control, chosen))
    ensures control == StageSelect ==> g == f.(pipelineStageId := Stored(control, chosen))
  {
    WithSelected(f, control, Stored(control, chosen))
  }

  // ---------------------------------------------------------------------------
  // Trimming and validation
  // ---------------------------------------------------------------------------

  /** The code points `String.prototype.trim` removes: white space and line terminators. */
  predicate IsTrimmable(c: char) {
    c == '\t' || c == '\n' || c == '\U{000B}' || c == '\U{000C}' || c == '\r' || c == ' '
    || c == '\U{00A0}' || c == '\U{1680}' || ('\U{2000}' <= c <= '\U{200A}')
    || c == '\U{2028}' || c == '\U{2029}' || c == '\U{202F}' || c == '\U{205F}'
    || c == '\U{3000}' || c == '\U{FEFF}'
  }

  /** `s` with its leading trimmable characters removed. */
  function TrimStart(s: string): (r: string)
    ensures |r| <= |s|
  {
    if s != [] && IsTrimmable(s[0]) then TrimStart(s[1..]) else s
  }

  /** `s` with its trailing trimmable characters removed. */
  function TrimEnd(s: string): (r: string)
    ensures |r| <= |s|
  {
    if s != [] && IsTrimmable(s[|s| - 1]) then TrimEnd(s[..|s| - 1]) else s
  }

  /** `s.trim()`. */
  function Trim(s: string): string {
    TrimEnd(TrimStart(s))
  }

  /** TrimStart removes a prefix of trimmable characters and stops at the first other one. */
  lemma {:induction false} TrimStartRemovesPrefix(s: string)
    ensures TrimStart(s) == s[|s| - |TrimStart(s)|..]
    ensures TrimStart(s) == [] || !IsTrimmable(TrimStart(s)[0])
    ensures forall i :: 0 <= i < |s| - |TrimStart(s)| ==> IsTrimmable(s[i])
  {
    if s != [] && IsTrimmable(s[0]) {
      TrimStartRemovesPrefix(s[1..]);
    }
  }

  /** TrimEnd removes a suffix of trimmable characters and stops at the last other one. */
  lemma {:induction false} TrimEndRemovesSuffix(s: string)
    ensures TrimEnd(s) == s[..|TrimEnd(s)|]
    ensures TrimEnd(s) == [] || !IsTrimmable(TrimEnd(s)[|TrimEnd(s)| - 1])
    ensures forall i :: |TrimEnd(s)| <= i < |s| ==> IsTrimmable(s[i])
  {
    if s != [] && IsTrimmable(s[|s| - 1]) {
      TrimEndRemovesSuffix(s[..|s| - 1]);
    }
  }

  /** The trimmed string is a slice of the input that neither starts nor ends with a trimmable character. */
  lemma TrimIsInnerSlice(s: string)
    ensures var k := |s| - |TrimStart(s)|;
      k + |Trim(s)| <= |s| && Trim(s) == s[k..k + |Trim(s)|]
      && forall i :: 0 <= i < |s| && !(k <= i < k + |Trim(s)|) ==> IsTrimmable(s[i])
    ensures Trim(s) == [] || (!IsTrimmable(Trim(s)[0]) && !IsTrimmable(Trim(s)[|Trim(s)| - 1]))
  {
    var t := TrimStart(s);
    TrimStartRemovesPrefix(s);
    TrimEndRemovesSuffix(t);
    var k := |s| - |t|;
    assert Trim(s) == s[k..k + |Trim(s)|];
    forall i | k + |Trim(s)| <= i < |s| ensures IsTrimmable(s[i]) {
      assert s[i] == t[i - k];
    }
  }

  /** `!s.trim()`: nothing is left once the string is trimmed. */
  predicate Blank(s: string) {
    Trim(s) == ""
  }

  /** The string has at least one character that trimming keeps. */
  ghost predicate HasVisibleChar(s: string) {
    exists i :: 0 <= i < |s| && !IsTrimmable(s[i])
  }

  /** A string is blank exactly when every one of its characters is trimmable. */
  lemma BlankIffNoVisibleChar(s: string)
    ensures Blank(s) <==> !HasVisibleChar(s)
  {
    var t := TrimStart(s);
    TrimStartRemovesPrefix(s);
    TrimEndRemovesSuffix(t);
    if Blank(s) {
      forall i | 0 <= i < |s| ensures IsTrimmable(s[i]) {
        if i >= |s| - |t| {
          assert s[i] == t[i - (|s| - |t|)];
        }
      }
    } else {
      var k := |s| - |t|;
      assert !IsTrimmable(t[0]) && s[k] == t[0];
    }
  }

  /** The three required fields, in the order they are checked. */
  datatype RequiredField = NameField | WhatsappField | NeighborhoodField

  datatype Validation = Valid | Missing(field: RequiredField)

  /**
   * Required-field validation: name, then whatsapp, then neighborhood, each
   * tested after trimming; the first blank one is reported.
   */
  function Validate(f: Form): Validation {
    if Blank(f.name) then Missing(NameField)
    else if Blank(f.whatsapp) then Missing(WhatsappField)
    else if Blank(f.neighborhood) then Missing(NeighborhoodField)
    else Valid
  }

  /**
   * Validation reports the first required field, in the order name, whatsapp,
   * neighborhood, that has no character left after trimming; it passes exactly
   * when all three have one.
   */
  lemma ValidationOrder(f: Form)
    ensures Validate(f) == Missing(NameField) <==> !HasVisibleChar(f.name)
    ensures Validate(f) == Missing(WhatsappField) <==> HasVisibleChar(f.name) && !HasVisibleChar(f.whatsapp)
    ensures Validate(f) == Missing(NeighborhoodField) <==>
      HasVisibleChar(f.name) && HasVisibleChar(f.whatsapp) && !HasVisibleChar(f.neighborhood)
    ensures Validate(f) == Valid <==>
      HasVisibleChar(f.name) && HasVisibleChar(f.whatsapp) && HasVisibleChar(f.neighborhood)
  {
    BlankIffNoVisibleChar(f.name);
    BlankIffNoVisibleChar(f.whatsapp);
    BlankIffNoVisibleChar(f.neighborhood);
  }

  /** The description of the notification for a missing required field. */
  function RequiredMessage(field: RequiredField): (m: string)
    ensures m != ""
  {
    match field
    case NameField => "Nome \U{00E9} obrigat\U{00F3}rio!"
    case WhatsappField => "WhatsApp \U{00E9} obrigat\U{00F3}rio!"
    case NeighborhoodField => "Bairro \U{00E9} obrigat\U{00F3}rio!"
  }

  /** Each required field has a message of its own, so the notification names the field that failed. */
  lemma RequiredMessagesDistinct(field: RequiredField, other: RequiredField)
    ensures RequiredMessage(field) == RequiredMessage(other) <==> field == other
  {
    if field != other {
      var m, n := RequiredMessage(field), RequiredMessage(other);
      assert m[0] != n[0];
    }
  }

  // ---------------------------------------------------------------------------
  // Normalisation and role gating
  // ---------------------------------------------------------------------------

  /** The six relational fields that are normalised to `null` before the update call. */
  datatype Relation = CityRelation | CellRelation | MinistryRelation | StageRelation | ReferralRelation | LeaderRelation
  {
    /** Cell and leader may only be changed by an administrator. */
    predicate AdminOnly() {
      this == CellRelation || this == LeaderRelation
    }
  }

  /** The sentinel each relational field is compared with during normalisation. */
  function NullSentinel(rel: Relation): (s: string)
    ensures s != ""
  {
    match rel
    case CityRelation => "no-city"
    case CellRelation => "no-cell"
    case MinistryRelation => "no-ministry"
    case StageRelation => "no-stage"
    case ReferralRelation => "no-referral"
    case LeaderRelation => "no-leader"
  }

  function FormRelation(f: Form, rel: Relation): string {
    match rel
    case CityRelation => f.cityId
    case CellRelation => f.cellId
    case MinistryRelation => f.ministryId
    case StageRelation => f.pipelineStageId
    case ReferralRelation => f.referredBy
    case LeaderRelation => f.leaderId
  }

  function PayloadRelation(p: Payload, rel: Relation): Option<string> {
    match rel
    case CityRelation => p.cityId
    case CellRelation => p.cellId
    case MinistryRelation => p.ministryId
    case StageRelation => p.pipelineStageId
    case ReferralRelation => p.referredBy
    case LeaderRelation => p.leaderId
  }

  function ContactRelation(c: Contact, rel: Relation): Option<string> {
    match rel
    case CityRelation => c.cityId
    case CellRelation => c.cellId
    case MinistryRelation => c.ministryId
    case StageRelation => c.pipelineStageId
    case ReferralRelation => c.referredBy
    case LeaderRelation => c.leaderId
  }

  /** `value === sentinel || !value ? null : value`. */
  function Nullable(value: string, sentinel: string): (r: Option<string>)
    ensures r == None <==> value == sentinel || value == ""
    ensures r != None ==> r == Some(value)
  {
    if value == sentinel || value == "" then None else Some(value)
  }

  /** The form spread into a payload with every relational field normalised. */
  function Normalized(f: Form): (p: Payload)
    ensures forall rel: Relation :: PayloadRelation(p, rel) == Nullable(FormRelation(f, rel), NullSentinel(rel))
    ensures p.name == f.name && p.whatsapp == f.whatsapp && p.neighborhood == f.neighborhood
    ensures p.status == f.status && p.age == f.age && p.birthDate == f.birthDate && p.photoUrl == f.photoUrl
    ensures p.encounterWithGod == f.encounterWithGod && p.baptized == f.baptized && p.founder == f.founder
  {
    Payload(
      name := f.name,
      whatsapp := f.whatsapp,
      neighborhood := f.neighborhood,
      cityId := Nullable(f.cityId, NullSentinel(CityRelation)),
      cellId := Nullable(f.cellId, NullSentinel(CellRelation)),
      ministryId := Nullable(f.ministryId, NullSentinel(MinistryRelation)),
      status := f.status,
      encounterWithGod := f.encounterWithGod,
      baptized := f.baptized,
      pipelineStageId := Nullable(f.pipelineStageId, NullSentinel(StageRelation)),
      age := f.age,
      birthDate := f.birthDate,
      referredBy := Nullable(f.referredBy, NullSentinel(ReferralRelation)),
      photoUrl := f.photoUrl,
      founder := f.founder,
      leaderId := Nullable(f.leaderId, NullSentinel(LeaderRelation)))
  }

  /** The payload of a submission: normalised, then cell and leader forced back for a non-admin. */
  function BuildPayload(f: Form, original: Contact, isAdmin: bool): (p: Payload)
    // fields that are not relational are copied verbatim (no trimming)
    ensures p.name == f.name && p.whatsapp == f.whatsapp && p.neighborhood == f.neighborhood
    ensures p.status == f.status && p.age == f.age && p.birthDate == f.birthDate
    ensures p.photoUrl == f.photoUrl
    ensures p.encounterWithGod == f.encounterWithGod && p.baptized == f.baptized && p.founder == f.founder
    // a relational field the user may edit is null exactly when it holds its sentinel or is empty
    ensures forall rel: Relation :: isAdmin || !rel.AdminOnly() ==>
      (PayloadRelation(p, rel) == None <==> FormRelation(f, rel) in {NullSentinel(rel), ""})
    ensures forall rel: Relation :: isAdmin || !rel.AdminOnly() ==>
      PayloadRelation(p, rel) != None ==> PayloadRelation(p, rel) == Some(FormRelation(f, rel))
    // a sentinel never reaches the update call through an editable field
    ensures forall rel: Relation :: isAdmin || !rel.AdminOnly() ==>
      PayloadRelation(p, rel) != Some(NullSentinel(rel)) && PayloadRelation(p, rel) != Some("")
    // a non-admin's cell and leader are the original contact's, whatever the form holds
    ensures forall rel: Relation :: !isAdmin && rel.AdminOnly() ==> PayloadRelation(p, rel) == ContactRelation(original, rel)
  {
    var normalized := Normalized(f);
    if isAdmin then normalized
    else normalized.(cellId := original.cellId, leaderId := original.leaderId)
  }

  /**
   * Saving a freshly seeded form keeps every editable relation of the contact,
   * except that an empty string is sent as `null`.
   */
  lemma SaveUnchangedKeepsRelations(c: Contact, isAdmin: bool, rel: Relation)
    requires ContactRelation(c, rel) != Some(NullSentinel(rel))
    requires isAdmin || !rel.AdminOnly()
    ensures PayloadRelation(BuildPayload(SeedForm(c), c, isAdmin), rel)
         == if ContactRelation(c, rel) == Some("") then None else ContactRelation(c, rel)
  {
    var f := SeedForm(c);
    assert FormRelation(f, rel) == OrEmpty(ContactRelation(c, rel));
  }

  /** Choosing the placeholder of a relational select and then submitting sends `null` for it. */
  lemma PlaceholderChoiceSendsNull(f: Form, control: SelectControl, original: Contact, isAdmin: bool, rel: Relation)
    requires (control, rel) in {(CitySelect, CityRelation), (LeaderSelect, LeaderRelation), (CellSelect, CellRelation),
                                (ReferralSelect, ReferralRelation), (StageSelect, StageRelation)}
    requires isAdmin || !rel.AdminOnly()
    ensures PayloadRelation(BuildPayload(AfterSelect(f, control, Placeholder(control)), original, isAdmin), rel) == None
  {
  }

  /** After a city is chosen the neighborhood is empty, so a submission is rejected on it or earlier. */
  lemma CityChangeBlocksSubmit(f: Form, chosen: string)
    ensures Validate(AfterSelect(f, CitySelect, chosen)) != Valid
  {
    assert !HasVisibleChar(AfterSelect(f, CitySelect, chosen).neighborhood);
  }

  // ---------------------------------------------------------------------------
  // Submission outcome
  // ---------------------------------------------------------------------------

  /** The answer of the update call: the stored record, or a rejection. */
  datatype UpdateResponse = Updated(record: Contact) | UpdateFailed

  /** The notifications a submission can show. */
  datatype Notice = FieldRequired(field: RequiredField) | ContactSaved | SaveFailed

  /** The toast shown for each notice; only the success notice is not destructive. */
  function NoticeToast(n: Notice): (t: Toast)
    ensures t.variant == Destructive <==> !n.ContactSaved?
    ensures n.FieldRequired? ==> t == ErrorToast(RequiredMessage(n.field))
  {
    match n
    case FieldRequired(field) => ErrorToast(RequiredMessage(field))
    case ContactSaved => Toast("Sucesso", "Contato atualizado com sucesso!", Default)
    case SaveFailed => ErrorToast("Erro ao atualizar contato!")
  }

  /** What a submission does, in order. */
  datatype Effect =
    | Notify(notice: Notice)
    | UpdateRequest(id: string, payload: Payload)
    | OnUpdate(updated: Contact)
    | OnClose

  /** Some effect of the list is an update call. */
  predicate RequestsWrite(effects: seq<Effect>) {
    exists i :: 0 <= i < |effects| && effects[i].UpdateRequest?
  }

  // ---------------------------------------------------------------------------
  // The dialog
  // ---------------------------------------------------------------------------

  /**
   * React compares effect dependencies with `Object.is`, so two `contact` props
   * are the same dependency only when they are the same object. A reference
   * number stands for the identity of the object passed; it means nothing when
   * no contact is passed.
   */
  predicate SameContactProp(a: Option<Contact>, aRef: nat, b: Option<Contact>, bRef: nat) {
    (a.None? && b.None?) || (a.Some? && b.Some? && aRef == bRef)
  }

  /** The dialog's props (`contact` with its object identity, `isOpen`) and its `formData` state. */
  class EditContactDialog {
    var contact: Option<Contact>
    var contactRef: nat
    var isOpen: bool
    var formData: Form

    /** Mounting: the initial form, then the seeding effect runs once with the first props. */
    constructor (contact: Option<Contact>, contactRef: nat, isOpen: bool)
      ensures this.contact == contact && this.contactRef == contactRef && this.isOpen == isOpen
      ensures formData == if contact.Some? && isOpen then SeedForm(contact.value) else InitialForm()
    {
      this.contact := contact;
      this.contactRef := contactRef;
      this.isOpen := isOpen;
      if contact.Some? && isOpen {
        formData := SeedForm(contact.value);
      } else {
        formData := InitialForm();
      }
    }

    /**
     * New props. The seeding effect depends on `[contact, isOpen]`: it runs when
     * a different contact object is passed or `isOpen` changed, and seeds only
     * for an open dialog with a contact. A contact object changed in place is
     * the same dependency and does not reseed.
     */
    method ReceiveProps(newContact: Option<Contact>, newRef: nat, newIsOpen: bool)
      modifies this
      ensures contact == newContact && contactRef == newRef && isOpen == newIsOpen
      ensures formData ==
        if (!SameContactProp(old(contact), old(contactRef), newContact, newRef) || newIsOpen != old(isOpen))
           && newContact.Some? && newIsOpen
        then SeedForm(newContact.value)
        else old(formData)
    {
      var changed := !SameContactProp(contact, contactRef, newContact, newRef) || newIsOpen != isOpen;
      contact, contactRef, isOpen := newContact, newRef, newIsOpen;
      if changed && newContact.Some? && newIsOpen {
        formData := SeedForm(newContact.value);
      }
    }

    /** The dialog renders (and so can be edited and submitted) only when open with a contact. */
    predicate Visible()
      reads this
    {
      isOpen && contact.Some?
    }

    /** The photo upload callback: only `photo_url` changes, to the URL or `''`. */
    method HandlePhotoChange(url: Option<string>)
      modifies this`formData
      ensures formData == old(formData).(photoUrl := OrEmpty(url))
    {
      formData := formData.(photoUrl := OrEmpty(url));
    }

    /** A select's `onValueChange`; the city select also clears the neighborhood. */
    method HandleSelect(control: SelectControl, chosen: string)
      modifies this`formData
      ensures formData == AfterSelect(old(formData), control, chosen)
      ensures control == CitySelect ==> formData.neighborhood == ""
      ensures control == CitySelect ==> (formData.cityId == "" <==> chosen in {"no-city", ""})
    {
      formData := AfterSelect(formData, control, chosen);
    }

    method HandleNameInput(text: string)
      modifies this`formData
      ensures formData == old(formData).(name := text)
    {
      formData := formData.(name := text);
    }

    method HandleWhatsappInput(text: string)
      modifies this`formData
      ensures formData == old(formData).(whatsapp := text)
    {
      formData := formData.(whatsapp := text);
    }

    method HandleBirthDateInput(text: string)
      modifies this`formData
      ensures formData == old(formData).(birthDate := text)
    {
      formData := formData.(birthDate := text);
    }

    method HandleEncounterSwitch(checked: bool)
      modifies this`formData
      ensures formData == old(formData).(encounterWithGod := checked)
    {
      formData := formData.(encounterWithGod := checked);
    }

    method HandleBaptizedSwitch(checked: bool)
      modifies this`formData
      ensures formData == old(formData).(baptized := checked)
    {
      formData := formData.(baptized := checked);
    }

    method HandleFounderSwitch(checked: bool)
      modifies this`formData
      ensures formData == old(formData).(founder := checked)
    {
      formData := formData.(founder := checked);
    }

    /**
     * Submitting the form. `isAdmin` is the current user's role, `hasOnUpdate`
     * whether the parent passed `onUpdate`, and `response` the answer the update
     * call gives if it is made. The form state is never changed by a submission.
     */
    method HandleSubmit(isAdmin: bool, hasOnUpdate: bool, response: UpdateResponse) returns (effects: seq<Effect>)
      requires Visible()
      ensures Validate(formData).Missing? ==>
        effects == [Notify(FieldRequired(Validate(formData).field))]
      ensures RequestsWrite(effects) <==> Validate(formData).Valid?
      ensures Validate(formData).Valid? ==>
        |effects| >= 2 && effects[0] == UpdateRequest(contact.value.id, BuildPayload(formData, contact.value, isAdmin))
      ensures Validate(formData).Valid? && response.Updated? ==>
        |effects| >= 2 && effects[1..] == (if hasOnUpdate then [OnUpdate(response.record)] else []) + [Notify(ContactSaved), OnClose]
      ensures Validate(formData).Valid? && response.UpdateFailed? ==>
        |effects| >= 2 && effects[1..] == [Notify(SaveFailed)]
      ensures OnClose in effects <==> Validate(formData).Valid? && response.Updated?
    {
      var original := contact.value;
      var outcome := Validate(formData);
      if outcome.Missing? {
        effects := [Notify(FieldRequired(outcome.field))];
        assert |effects| == 1 && !effects[0].UpdateRequest? && effects[0] != OnClose;
        assert !RequestsWrite(effects) && OnClose !in effects;
      } else {
        var dataToUpdate := BuildPayload(formData, original, isAdmin);
        var request := UpdateRequest(original.id, dataToUpdate);
        match response
        case Updated(record) =>
          var tail := (if hasOnUpdate then [OnUpdate(record)] else []) + [Notify(ContactSaved), OnClose];
          effects := [request] + tail;
          assert effects[0] == request && effects[1..] == tail;
          assert effects[|effects| - 1] == OnClose;
          assert RequestsWrite(effects) && OnClose in effects;
        case UpdateFailed =>
          effects := [request, Notify(SaveFailed)];
          assert effects[0] == request && effects[1..] == [Notify(SaveFailed)];
          assert RequestsWrite(effects) && OnClose !in effects;
      }
    }
  }

  /**
   * The parent re-renders with a fresh copy of the same contact while the user
   * is editing: the new object is a new dependency, so the form is seeded again
   * and the typed name is lost.
   */
  method EditThenFreshCopy(c: Contact, typed: string, firstRef: nat, copyRef: nat) returns (edited: string, after: string)
    requires firstRef != copyRef
    ensures edited == typed
    ensures after == SeedForm(c).name
  {
    var dialog := new EditContactDialog(Some(c), firstRef, true);
    dialog.HandleNameInput(typed);
    edited := dialog.formData.name;
    dialog.ReceiveProps(Some(c), copyRef, true);
    after := dialog.formData.name;
  }

  /**
   * The parent changes the contact object in place and re-renders with it: the
   * dependency is the same object, so the typed name is kept.
   */
  method EditThenSameObjectChanged(c: Contact, changed: Contact, typed: string, ref: nat) returns (after: string)
    ensures after == typed
  {
    var dialog := new EditContactDialog(Some(c), ref, true);
    dialog.HandleNameInput(typed);
    dialog.ReceiveProps(Some(changed), ref, true);
    after := dialog.formData.name;
  }
}
