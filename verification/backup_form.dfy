/** The create-backup form of the backups dashboard: the values a form starts with (empty
    or prefilled), the options each select marks as selected, and how a submitted form
    becomes the parameters of a new backup task. */
module BackupForm {
  import opened Optionals
  import opened Uuids
  import Strconv

  /** The form's fields as text, the shape in which a prefill is handed to the form.
      Flags hold "true" or "false"; `destinationId` is "" when there is no destination;
      `retentionDays` is a decimal number. */
  datatype FormValues = FormValues(
    databaseId: string,
    destinationId: string,
    isLocal: string,
    name: string,
    cronExpression: string,
    timeZone: string,
    isActive: string,
    destDir: string,
    retentionDays: string,
    optDataOnly: string,
    optSchemaOnly: string,
    optClean: string,
    optIfExists: string,
    optCreate: string,
    optNoComments: string
  )

  /** The submitted form after binding: the UUID fields parsed, the retention days read as
      a 16-bit integer, everything else still text. */
  datatype FormData = FormData(
    databaseId: Uuid,
    destinationId: Uuid,
    isLocal: string,
    name: string,
    cronExpression: string,
    timeZone: string,
    isActive: string,
    destDir: string,
    retentionDays: Strconv.Int16,
    optDataOnly: string,
    optSchemaOnly: string,
    optClean: string,
    optIfExists: string,
    optCreate: string,
    optNoComments: string
  )

  /** The parameters of the backups service's create call. */
  datatype CreateParams = CreateParams(
    databaseId: Uuid,
    destinationId: NullUuid,
    isLocal: bool,
    name: string,
    cronExpression: string,
    timeZone: string,
    isActive: bool,
    destDir: string,
    retentionDays: Strconv.Int16,
    optDataOnly: bool,
    optSchemaOnly: bool,
    optClean: bool,
    optIfExists: bool,
    optCreate: bool,
    optNoComments: bool
  )

  /** A stored backup's destination agrees with its locality: a remote backup has a
      destination, a local one has none and keeps the zero UUID. */
  predicate DestinationConsistent(p: CreateParams) {
    && (p.destinationId.valid <==> !p.isLocal)
    && (!p.destinationId.valid ==> p.destinationId.uuid == NilUuid)
  }

  // ---------------------------------------------------------------- submission

  /** The form binder reads an empty integer field as zero. */
  function IntFieldText(s: string): (t: string)
    ensures t != ""
    ensures s != "" ==> t == s
  {
    if s == "" then "0" else s
  }

  /** The destination field as bound. Its select is only in the page while `is_local` is
      "false"; otherwise nothing is submitted and the field keeps the zero UUID. */
  function BoundDestination(v: FormValues): (r: Option<Uuid>)
    ensures v.isLocal != "false" ==> r == Some(NilUuid)
    ensures v.isLocal == "false" ==> r == ParseUuid(v.destinationId)
  {
    if v.isLocal == "false" then ParseUuid(v.destinationId) else Some(NilUuid)
  }

  /** Binding the submitted fields; it fails on a malformed UUID or on a retention value
      that is not a decimal `int16`. */
  function Bind(v: FormValues): (r: Option<FormData>)
    ensures r.Some? <==>
      && ParseUuid(v.databaseId).Some?
      && BoundDestination(v).Some?
      && Strconv.ParseInt(IntFieldText(v.retentionDays), 16).Some?
    ensures r.Some? ==>
      && r.value.databaseId == v.databaseId
      && Some(r.value.destinationId) == BoundDestination(v)
      && Strconv.ParseInt(IntFieldText(v.retentionDays), 16) == Some(r.value.retentionDays as int)
      && r.value.isLocal == v.isLocal && r.value.isActive == v.isActive
      && r.value.name == v.name && r.value.cronExpression == v.cronExpression
      && r.value.timeZone == v.timeZone && r.value.destDir == v.destDir
      && r.value.optDataOnly == v.optDataOnly && r.value.optSchemaOnly == v.optSchemaOnly
      && r.value.optClean == v.optClean && r.value.optIfExists == v.optIfExists
      && r.value.optCreate == v.optCreate && r.value.optNoComments == v.optNoComments
  {
    var days := Strconv.ParseInt(IntFieldText(v.retentionDays), 16);
    Strconv.ParseInt16InRange(IntFieldText(v.retentionDays));
    match (ParseUuid(v.databaseId), BoundDestination(v), days)
    case (Some(db), Some(dest), Some(n)) =>
      Some(FormData(
        db, dest, v.isLocal, v.name, v.cronExpression, v.timeZone, v.isActive, v.destDir, n,
        v.optDataOnly, v.optSchemaOnly, v.optClean, v.optIfExists, v.optCreate, v.optNoComments))
    case _ => None
  }

  /** The `oneof=true false` rule. */
  predicate IsFlag(s: string) {
    s == "true" || s == "false"
  }

  /** The validation tags of the bound form: a non-zero database, non-empty required
      text, and "true"/"false" in every flag. */
  predicate Valid(f: FormData) {
    && f.databaseId != NilUuid
    && IsFlag(f.isLocal) && IsFlag(f.isActive)
    && f.name != "" && f.cronExpression != "" && f.timeZone != "" && f.destDir != ""
    && IsFlag(f.optDataOnly) && IsFlag(f.optSchemaOnly) && IsFlag(f.optClean)
    && IsFlag(f.optIfExists) && IsFlag(f.optCreate) && IsFlag(f.optNoComments)
  }

  /** The create call's parameters from a bound form: each flag is true exactly when its
      text is "true"; the destination is marked present exactly when `is_local` is
      "false", and carries the bound UUID either way. */
  function ToParams(f: FormData): (p: CreateParams)
    ensures p.destinationId.valid <==> f.isLocal == "false"
    ensures p.destinationId.uuid == f.destinationId
    ensures p.isLocal <==> f.isLocal == "true"
    ensures p.isActive <==> f.isActive == "true"
    ensures p.optDataOnly <==> f.optDataOnly == "true"
    ensures p.optSchemaOnly <==> f.optSchemaOnly == "true"
    ensures p.optClean <==> f.optClean == "true"
    ensures p.optIfExists <==> f.optIfExists == "true"
    ensures p.optCreate <==> f.optCreate == "true"
    ensures p.optNoComments <==> f.optNoComments == "true"
    ensures p.databaseId == f.databaseId && p.retentionDays == f.retentionDays
    ensures p.name == f.name && p.cronExpression == f.cronExpression
    ensures p.timeZone == f.timeZone && p.destDir == f.destDir
  {
    CreateParams(
      databaseId := f.databaseId,
      destinationId := NullUuid(f.destinationId, f.isLocal == "false"),
      isLocal := f.isLocal == "true",
      name := f.name,
      cronExpression := f.cronExpression,
      timeZone := f.timeZone,
      isActive := f.isActive == "true",
      destDir := f.destDir,
      retentionDays := f.retentionDays,
      optDataOnly := f.optDataOnly == "true",
      optSchemaOnly := f.optSchemaOnly == "true",
      optClean := f.optClean == "true",
      optIfExists := f.optIfExists == "true",
      optCreate := f.optCreate == "true",
      optNoComments := f.optNoComments == "true"
    )
  }

  /** For a validated form, reading a flag as `== "true"` loses nothing: writing the
      boolean back gives the submitted text, and the destination is present exactly for
      a remote backup. */
  lemma ValidFlagsRoundTrip(f: FormData)
    requires Valid(f)
    ensures var p := ToParams(f);
      && Strconv.FormatBool(p.isLocal) == f.isLocal
      && Strconv.FormatBool(p.isActive) == f.isActive
      && Strconv.FormatBool(p.optDataOnly) == f.optDataOnly
      && Strconv.FormatBool(p.optSchemaOnly) == f.optSchemaOnly
      && Strconv.FormatBool(p.optClean) == f.optClean
      && Strconv.FormatBool(p.optIfExists) == f.optIfExists
      && Strconv.FormatBool(p.optCreate) == f.optCreate
      && Strconv.FormatBool(p.optNoComments) == f.optNoComments
      && (p.destinationId.valid <==> !p.isLocal)
  {
  }

  /** The create handler on a submitted form: the parameters passed to the service, or
      `None` when binding or validation fails. */
  function CreateBackup(v: FormValues): (r: Option<CreateParams>)
    ensures r.Some? <==> Bind(v).Some? && Valid(Bind(v).value)
    ensures r.Some? ==> r.value == ToParams(Bind(v).value)
  {
    match Bind(v)
    case None => None
    case Some(f) => if Valid(f) then Some(ToParams(f)) else None
  }

  /** Every task the create handler accepts has a destination exactly when it is remote,
      and a local one keeps the zero UUID. */
  lemma CreatedIsConsistent(v: FormValues)
    requires CreateBackup(v).Some?
    ensures DestinationConsistent(CreateBackup(v).value)
    ensures CreateBackup(v).value.isLocal <==> v.isLocal == "true"
    ensures !CreateBackup(v).value.isLocal ==> CreateBackup(v).value.destinationId.uuid == v.destinationId
  {
    var f := Bind(v).value;
    ValidFlagsRoundTrip(f);
  }

  /** The validation tags in terms of the submitted text: a form that binds is accepted
      exactly when the database is not the zero UUID, the required texts are non-empty
      and every flag field is "true" or "false". */
  lemma RequiredFieldsEnforced(v: FormValues)
    requires Bind(v).Some?
    ensures CreateBackup(v).Some? <==>
      && v.databaseId != NilUuid
      && v.name != "" && v.cronExpression != "" && v.timeZone != "" && v.destDir != ""
      && IsFlag(v.isLocal) && IsFlag(v.isActive)
      && IsFlag(v.optDataOnly) && IsFlag(v.optSchemaOnly) && IsFlag(v.optClean)
      && IsFlag(v.optIfExists) && IsFlag(v.optCreate) && IsFlag(v.optNoComments)
  {
  }

  // ---------------------------------------------------------------- initial values

  /** The initial text of every field the form fills in itself. */
  datatype Initial = Initial(
    isLocal: string,
    name: string,
    cronExpression: string,
    destDir: string,
    retentionDays: string,
    isActive: string,
    optDataOnly: string,
    optSchemaOnly: string,
    optClean: string,
    optIfExists: string,
    optCreate: string,
    optNoComments: string
  )

  /** A flag's initial text: the prefilled one when there is a non-empty one, else "false". */
  function FlagOrFalse(prefill: Option<FormValues>, given: string): (s: string)
    ensures prefill.None? || given == "" ==> s == "false"
    ensures prefill.Some? && given != "" ==> s == given
  {
    if prefill.Some? && given != "" then given else "false"
  }

  /** A text field's initial value: the prefilled one, or empty without a prefill. */
  function TextOrEmpty(prefill: Option<FormValues>, given: string): (s: string)
    ensures prefill.None? ==> s == ""
    ensures prefill.Some? ==> s == given
  {
    if prefill.Some? then given else ""
  }

  /** The values the form starts with. A new form is empty, local off, active on and
      every dump option off; a prefilled form copies the prefill, falls back to "false"
      for empty flags, and always starts inactive whatever the prefill says. */
  function InitialValues(prefill: Option<FormValues>): (r: Initial)
    ensures prefill.None? ==> r == Initial("false", "", "", "", "", "true",
                                           "false", "false", "false", "false", "false", "false")
    ensures prefill.Some? ==>
      var p := prefill.value;
      && r.isActive == "false"
      && r.name == p.name && r.cronExpression == p.cronExpression
      && r.destDir == p.destDir && r.retentionDays == p.retentionDays
      && r.isLocal == (if p.isLocal == "" then "false" else p.isLocal)
      && r.optDataOnly == (if p.optDataOnly == "" then "false" else p.optDataOnly)
      && r.optSchemaOnly == (if p.optSchemaOnly == "" then "false" else p.optSchemaOnly)
      && r.optClean == (if p.optClean == "" then "false" else p.optClean)
      && r.optIfExists == (if p.optIfExists == "" then "false" else p.optIfExists)
      && r.optCreate == (if p.optCreate == "" then "false" else p.optCreate)
      && r.optNoComments == (if p.optNoComments == "" then "false" else p.optNoComments)
    ensures IsFlagOrEmptyPrefill(prefill) ==> InitialFlagsAreFlags(r)
  {
    var p := if prefill.Some? then prefill.value else FormValues("", "", "", "", "", "", "", "", "", "", "", "", "", "", "");
    Initial(
      isLocal := FlagOrFalse(prefill, p.isLocal),
      name := TextOrEmpty(prefill, p.name),
      cronExpression := TextOrEmpty(prefill, p.cronExpression),
      destDir := TextOrEmpty(prefill, p.destDir),
      retentionDays := TextOrEmpty(prefill, p.retentionDays),
      isActive := if prefill.Some? then "false" else "true",
      optDataOnly := FlagOrFalse(prefill, p.optDataOnly),
      optSchemaOnly := FlagOrFalse(prefill, p.optSchemaOnly),
      optClean := FlagOrFalse(prefill, p.optClean),
      optIfExists := FlagOrFalse(prefill, p.optIfExists),
      optCreate := FlagOrFalse(prefill, p.optCreate),
      optNoComments := FlagOrFalse(prefill, p.optNoComments)
    )
  }

  /** Every prefilled flag is "true", "false" or empty (trivially so without a prefill). */
  predicate IsFlagOrEmptyPrefill(prefill: Option<FormValues>) {
    prefill.Some? ==>
      var p := prefill.value;
      && (IsFlag(p.isLocal) || p.isLocal == "")
      && (IsFlag(p.optDataOnly) || p.optDataOnly == "")
      && (IsFlag(p.optSchemaOnly) || p.optSchemaOnly == "")
      && (IsFlag(p.optClean) || p.optClean == "")
      && (IsFlag(p.optIfExists) || p.optIfExists == "")
      && (IsFlag(p.optCreate) || p.optCreate == "")
      && (IsFlag(p.optNoComments) || p.optNoComments == "")
  }

  predicate InitialFlagsAreFlags(r: Initial) {
    && IsFlag(r.isLocal) && IsFlag(r.isActive)
    && IsFlag(r.optDataOnly) && IsFlag(r.optSchemaOnly) && IsFlag(r.optClean)
    && IsFlag(r.optIfExists) && IsFlag(r.optCreate) && IsFlag(r.optNoComments)
  }

  // ---------------------------------------------------------------- select options

  /** One `<option>` of a select. */
  datatype SelectOption = SelectOption(value: string, text: string, selected: bool)

  /** The Yes/No options of a dump-option select: Yes is selected for "true", No for
      "false" and also for the empty string. */
  function YesNoOptions(current: string): (r: seq<SelectOption>)
    ensures |r| == 2
    ensures r[0].value == "true" && r[0].text == "Yes" && r[1].value == "false" && r[1].text == "No"
    ensures r[0].selected <==> current == "true"
    ensures r[1].selected <==> current == "false" || current == ""
  {
    [SelectOption("true", "Yes", current == "true"),
     SelectOption("false", "No", current == "false" || current == "")]
  }

  /** The Yes/No options of the `is_local` and `is_active` selects, which have no empty case. */
  function FlagOptions(current: string): (r: seq<SelectOption>)
    ensures |r| == 2
    ensures r[0].value == "true" && r[0].text == "Yes" && r[1].value == "false" && r[1].text == "No"
    ensures r[0].selected <==> current == "true"
    ensures r[1].selected <==> current == "false"
  {
    [SelectOption("true", "Yes", current == "true"),
     SelectOption("false", "No", current == "false")]
  }

  /** The number of selected options. */
  function SelectedCount(os: seq<SelectOption>): (n: nat)
    ensures n <= |os|
    ensures n == 0 <==> forall i :: 0 <= i < |os| ==> !os[i].selected
  {
    if os == [] then 0 else (if os[0].selected then 1 else 0) + SelectedCount(os[1..])
  }

  /** Exactly one Yes/No option is selected precisely for "true", "false" and "", and the
      selected one submits "true" for "true" and "false" otherwise; any other text
      selects nothing. */
  lemma YesNoSelection(current: string)
    ensures var os := YesNoOptions(current);
      && (SelectedCount(os) == 1 <==> IsFlag(current) || current == "")
      && (SelectedCount(os) == 0 <==> !(IsFlag(current) || current == ""))
      && (forall i :: 0 <= i < 2 && os[i].selected ==>
            os[i].value == (if current == "true" then "true" else "false"))
  {
    var os := YesNoOptions(current);
    assert os[1..][1..] == [];
  }

  /** The `is_local`/`is_active` options select exactly one option for a flag and none
      otherwise; the selected option submits the flag itself. */
  lemma FlagSelection(current: string)
    ensures var os := FlagOptions(current);
      && (SelectedCount(os) == 1 <==> IsFlag(current))
      && (SelectedCount(os) == 0 <==> !IsFlag(current))
      && (forall i :: 0 <= i < 2 && os[i].selected ==> os[i].value == current)
  {
    var os := FlagOptions(current);
    assert os[1..][1..] == [];
  }

  /** A database or destination row offered by the select. */
  datatype Row = Row(id: Uuid, name: string)

  /** The options for a list of rows: a row is selected when a prefill names a non-empty
      ID and that ID is the row's. */
  function RowOptions(rows: seq<Row>, chosen: Option<string>): (r: seq<SelectOption>)
    ensures |r| == |rows|
    ensures forall i :: 0 <= i < |rows| ==>
      && r[i].value == rows[i].id && r[i].text == rows[i].name
      && (r[i].selected <==> chosen.Some? && chosen.value != "" && rows[i].id == chosen.value)
  {
    seq(|rows|, i requires 0 <= i < |rows| =>
      SelectOption(rows[i].id, rows[i].name, chosen.Some? && chosen.value != "" && rows[i].id == chosen.value))
  }

  function PrefilledDatabase(prefill: Option<FormValues>): Option<string> {
    if prefill.Some? then Some(prefill.value.databaseId) else None
  }

  function PrefilledDestination(prefill: Option<FormValues>): Option<string> {
    if prefill.Some? then Some(prefill.value.destinationId) else None
  }

  predicate DistinctIds(rows: seq<Row>) {
    forall i, j :: 0 <= i < j < |rows| ==> rows[i].id != rows[j].id
  }

  lemma {:induction false} SelectedCountZero(os: seq<SelectOption>)
    requires forall i :: 0 <= i < |os| ==> !os[i].selected
    ensures SelectedCount(os) == 0
    decreases |os|
  {
    if os != [] {
      SelectedCountZero(os[1..]);
    }
  }

  lemma {:induction false} SelectedCountOne(os: seq<SelectOption>, k: nat)
    requires k < |os| && os[k].selected
    requires forall i :: 0 <= i < |os| && i != k ==> !os[i].selected
    ensures SelectedCount(os) == 1
    decreases |os|
  {
    if k == 0 {
      SelectedCountZero(os[1..]);
    } else {
      SelectedCountOne(os[1..], k - 1);
    }
  }

  /** With distinct row IDs at most one row is selected; it is exactly one, the row with
      the prefilled ID, when that ID is among the rows; none when it is not or when no ID
      was prefilled. */
  lemma RowSelection(rows: seq<Row>, chosen: Option<string>)
    requires DistinctIds(rows)
    ensures var os := RowOptions(rows, chosen);
      && SelectedCount(os) <= 1
      && (SelectedCount(os) == 1 <==> exists i :: 0 <= i < |rows| && chosen == Some(rows[i].id))
      && (forall i :: 0 <= i < |rows| && os[i].selected ==> chosen == Some(rows[i].id))
  {
    var os := RowOptions(rows, chosen);
    if i :| 0 <= i < |rows| && chosen == Some(rows[i].id) {
      assert os[i].selected;
      SelectedCountOne(os, i);
    } else {
      SelectedCountZero(os);
    }
  }

  /** A time zone of the static list. */
  datatype Timezone = Timezone(code: string, title: string)

  /** The zone the form proposes: the prefilled one when non-empty, else the server's. */
  function EffectiveZone(prefill: Option<FormValues>, serverZone: string): (z: string)
    ensures prefill.Some? && prefill.value.timeZone != "" ==> z == prefill.value.timeZone
    ensures prefill.None? || prefill.value.timeZone == "" ==> z == serverZone
  {
    if prefill.Some? && prefill.value.timeZone != "" then prefill.value.timeZone else serverZone
  }

  /** The time-zone options: a zone is selected when its code is the proposed zone. */
  function TimezoneOptions(zones: seq<Timezone>, prefill: Option<FormValues>, serverZone: string): (r: seq<SelectOption>)
    ensures |r| == |zones|
    ensures forall i :: 0 <= i < |zones| ==>
      && r[i].value == zones[i].code && r[i].text == zones[i].title
      && (r[i].selected <==>
            if prefill.Some? && prefill.value.timeZone != "" then zones[i].code == prefill.value.timeZone
            else zones[i].code == serverZone)
  {
    var z := EffectiveZone(prefill, serverZone);
    seq(|zones|, i requires 0 <= i < |zones| => SelectOption(zones[i].code, zones[i].title, zones[i].code == z))
  }

  /** With distinct codes exactly one zone is selected when the proposed zone is listed,
      and none otherwise. */
  lemma TimezoneSelection(zones: seq<Timezone>, prefill: Option<FormValues>, serverZone: string)
    requires forall i, j :: 0 <= i < j < |zones| ==> zones[i].code != zones[j].code
    ensures var os := TimezoneOptions(zones, prefill, serverZone);
      var z := EffectiveZone(prefill, serverZone);
      && SelectedCount(os) <= 1
      && (SelectedCount(os) == 1 <==> exists i :: 0 <= i < |zones| && zones[i].code == z)
  {
    var os := TimezoneOptions(zones, prefill, serverZone);
    var z := EffectiveZone(prefill, serverZone);
    if i :| 0 <= i < |zones| && zones[i].code == z {
      SelectedCountOne(os, i);
    } else {
      SelectedCountZero(os);
    }
  }

  // ---------------------------------------------------------------- the form

  /** A text input's `value` attribute, present only for a non-empty value. */
  function ValueAttr(s: string): (r: Option<string>)
    ensures r.None? <==> s == ""
    ensures r.Some? ==> r.value == s
  {
    if s == "" then None else Some(s)
  }

  /** The form as rendered: the initial Alpine `is_local` state, the input values and the
      options of every select. The destination select sits in a template the page shows
      only while `is_local` is "false". */
  datatype FormView = FormView(
    localState: string,
    name: Option<string>,
    databaseOptions: seq<SelectOption>,
    isLocalOptions: seq<SelectOption>,
    destinationOptions: seq<SelectOption>,
    cronExpression: Option<string>,
    timeZoneOptions: seq<SelectOption>,
    destDir: Option<string>,
    retentionDays: Option<string>,
    isActiveOptions: seq<SelectOption>,
    optDataOnlyOptions: seq<SelectOption>,
    optSchemaOnlyOptions: seq<SelectOption>,
    optCleanOptions: seq<SelectOption>,
    optIfExistsOptions: seq<SelectOption>,
    optCreateOptions: seq<SelectOption>,
    optNoCommentsOptions: seq<SelectOption>
  )

  /** The create-backup form for the given rows, zones, server zone and optional prefill. */
  function CreateBackupForm(
    databases: seq<Row>, destinations: seq<Row>, zones: seq<Timezone>, serverZone: string,
    prefill: Option<FormValues>
  ): (f: FormView)
    ensures f.localState == InitialValues(prefill).isLocal
    ensures f.name == ValueAttr(InitialValues(prefill).name)
    ensures f.databaseOptions == RowOptions(databases, PrefilledDatabase(prefill))
    ensures f.destinationOptions == RowOptions(destinations, PrefilledDestination(prefill))
    ensures f.timeZoneOptions == TimezoneOptions(zones, prefill, serverZone)
    ensures f.isLocalOptions == FlagOptions(f.localState)
    ensures f.isActiveOptions == FlagOptions(InitialValues(prefill).isActive)
    ensures f.cronExpression == ValueAttr(InitialValues(prefill).cronExpression)
    ensures f.destDir == ValueAttr(InitialValues(prefill).destDir)
    ensures f.retentionDays == ValueAttr(InitialValues(prefill).retentionDays)
    ensures f.optDataOnlyOptions == YesNoOptions(InitialValues(prefill).optDataOnly)
    ensures f.optSchemaOnlyOptions == YesNoOptions(InitialValues(prefill).optSchemaOnly)
    ensures f.optCleanOptions == YesNoOptions(InitialValues(prefill).optClean)
    ensures f.optIfExistsOptions == YesNoOptions(InitialValues(prefill).optIfExists)
    ensures f.optCreateOptions == YesNoOptions(InitialValues(prefill).optCreate)
    ensures f.optNoCommentsOptions == YesNoOptions(InitialValues(prefill).optNoComments)
  {
    var init := InitialValues(prefill);
    FormView(
      localState := init.isLocal,
      name := ValueAttr(init.name),
      databaseOptions := RowOptions(databases, PrefilledDatabase(prefill)),
      isLocalOptions := FlagOptions(init.isLocal),
      destinationOptions := RowOptions(destinations, PrefilledDestination(prefill)),
      cronExpression := ValueAttr(init.cronExpression),
      timeZoneOptions := TimezoneOptions(zones, prefill, serverZone),
      destDir := ValueAttr(init.destDir),
      retentionDays := ValueAttr(init.retentionDays),
      isActiveOptions := FlagOptions(init.isActive),
      optDataOnlyOptions := YesNoOptions(init.optDataOnly),
      optSchemaOnlyOptions := YesNoOptions(init.optSchemaOnly),
      optCleanOptions := YesNoOptions(init.optClean),
      optIfExistsOptions := YesNoOptions(init.optIfExists),
      optCreateOptions := YesNoOptions(init.optCreate),
      optNoCommentsOptions := YesNoOptions(init.optNoComments)
    )
  }

  /** A new form: empty inputs, nothing chosen among databases and destinations, the
      server's zone proposed, local "No", active "Yes" and every dump option "No". */
  lemma NewFormDefaults(databases: seq<Row>, destinations: seq<Row>, zones: seq<Timezone>, serverZone: string)
    ensures var f := CreateBackupForm(databases, destinations, zones, serverZone, None);
      && f.localState == "false"
      && f.name == None && f.cronExpression == None && f.destDir == None && f.retentionDays == None
      && (forall i :: 0 <= i < |f.databaseOptions| ==> !f.databaseOptions[i].selected)
      && (forall i :: 0 <= i < |f.destinationOptions| ==> !f.destinationOptions[i].selected)
      && (forall i :: 0 <= i < |zones| ==> (f.timeZoneOptions[i].selected <==> zones[i].code == serverZone))
      && !f.isLocalOptions[0].selected && f.isLocalOptions[1].selected
      && f.isActiveOptions[0].selected && !f.isActiveOptions[1].selected
      && !f.optDataOnlyOptions[0].selected && f.optDataOnlyOptions[1].selected
      && !f.optSchemaOnlyOptions[0].selected && f.optSchemaOnlyOptions[1].selected
      && !f.optCleanOptions[0].selected && f.optCleanOptions[1].selected
      && !f.optIfExistsOptions[0].selected && f.optIfExistsOptions[1].selected
      && !f.optCreateOptions[0].selected && f.optCreateOptions[1].selected
      && !f.optNoCommentsOptions[0].selected && f.optNoCommentsOptions[1].selected
  {
  }

  /** A prefilled form always proposes an inactive task, whatever the prefill says. */
  lemma PrefilledFormInactive(databases: seq<Row>, destinations: seq<Row>, zones: seq<Timezone>,
                              serverZone: string, prefill: FormValues)
    ensures var f := CreateBackupForm(databases, destinations, zones, serverZone, Some(prefill));
      !f.isActiveOptions[0].selected && f.isActiveOptions[1].selected
  {
  }
}
