/** Duplicating a backup task: the stored task becomes a prefill for the create-backup
    form, and submitting that prefill creates the same task under a new name, inactive. */
module DuplicateBackup {
  import opened Optionals
  import opened Uuids
  import Strconv
  import opened BackupForm

  /** A stored backup task, as the backups service returns it. */
  datatype Backup = Backup(
    id: Uuid,
    databaseId: Uuid,
    destinationId: NullUuid,
    isLocal: bool,
    name: string,
    cronExpression: string,
    timeZone: string,
    isActive: bool,
    destDir: string,
    retentionDays: Strconv.Int16,
    optDataOnly: bool,
    optSchemaOnly: bool,
    optClean: bool,
    optIfExists: bool,
    optCreate: bool,
    optNoComments: bool
  )

  /** The suffix that marks a copy's name. */
  const CopySuffix: string := " (copy)"

  /** The prefill for duplicating `b`. Every field is the original's as text, except that
      the name gains the copy suffix, the task starts inactive, and a missing destination
      becomes the empty string. */
  function DuplicatePrefill(b: Backup): (v: FormValues)
    ensures v.name == b.name + CopySuffix
    ensures v.isActive == "false"
    ensures b.destinationId.valid ==> v.destinationId == b.destinationId.uuid
    ensures !b.destinationId.valid ==> v.destinationId == ""
    ensures v.databaseId == b.databaseId && v.cronExpression == b.cronExpression
    ensures v.timeZone == b.timeZone && v.destDir == b.destDir
  {
    FormValues(
      databaseId := b.databaseId,
      destinationId := if b.destinationId.valid then b.destinationId.uuid else "",
      isLocal := Strconv.FormatBool(b.isLocal),
      name := b.name + CopySuffix,
      cronExpression := b.cronExpression,
      timeZone := b.timeZone,
      isActive := "false",
      destDir := b.destDir,
      retentionDays := Strconv.Itoa(b.retentionDays),
      optDataOnly := Strconv.FormatBool(b.optDataOnly),
      optSchemaOnly := Strconv.FormatBool(b.optSchemaOnly),
      optClean := Strconv.FormatBool(b.optClean),
      optIfExists := Strconv.FormatBool(b.optIfExists),
      optCreate := Strconv.FormatBool(b.optCreate),
      optNoComments := Strconv.FormatBool(b.optNoComments)
    )
  }

  /** The prefill writes every flag as "true" or "false" so that reading it back as
      `== "true"` gives the original flag, and writes the retention days in decimal so
      that a 16-bit parse gives the original number. */
  lemma DuplicateEncoding(b: Backup)
    ensures var v := DuplicatePrefill(b);
      && IsFlag(v.isLocal) && (v.isLocal == "true" <==> b.isLocal)
      && IsFlag(v.optDataOnly) && (v.optDataOnly == "true" <==> b.optDataOnly)
      && IsFlag(v.optSchemaOnly) && (v.optSchemaOnly == "true" <==> b.optSchemaOnly)
      && IsFlag(v.optClean) && (v.optClean == "true" <==> b.optClean)
      && IsFlag(v.optIfExists) && (v.optIfExists == "true" <==> b.optIfExists)
      && IsFlag(v.optCreate) && (v.optCreate == "true" <==> b.optCreate)
      && IsFlag(v.optNoComments) && (v.optNoComments == "true" <==> b.optNoComments)
      && v.retentionDays != "" && Strconv.ParseInt(v.retentionDays, 16) == Some(b.retentionDays as int)
  {
    Strconv.ParseInt16Itoa(b.retentionDays);
  }

  /** The create parameters that would recreate `b` exactly. */
  function ParamsOf(b: Backup): CreateParams {
    CreateParams(
      b.databaseId, b.destinationId, b.isLocal, b.name, b.cronExpression, b.timeZone,
      b.isActive, b.destDir, b.retentionDays,
      b.optDataOnly, b.optSchemaOnly, b.optClean, b.optIfExists, b.optCreate, b.optNoComments)
  }

  /** The fields the create form requires to be set. */
  predicate RequiredFieldsSet(b: Backup) {
    b.databaseId != NilUuid && b.cronExpression != "" && b.timeZone != "" && b.destDir != ""
  }

  /** For a task whose destination agrees with its locality, binding its duplicate
      prefill succeeds and recovers the original's database, retention and destination
      (the zero UUID for a local task). */
  lemma {:induction false} DuplicateBinds(b: Backup)
    requires DestinationConsistent(ParamsOf(b))
    ensures var r := Bind(DuplicatePrefill(b));
      && r.Some?
      && r.value.databaseId == b.databaseId
      && r.value.retentionDays == b.retentionDays
      && r.value.destinationId == b.destinationId.uuid
  {
    var v := DuplicatePrefill(b);
    DuplicateEncoding(b);
    assert IntFieldText(v.retentionDays) == v.retentionDays;
    if !b.isLocal {
      assert v.isLocal == "false";
      assert ParseUuid(v.destinationId) == Some(b.destinationId.uuid);
    } else {
      assert v.isLocal == "true";
    }
  }

  /** Round trip: for a task whose destination agrees with its locality, submitting its
      duplicate prefill creates the same task, renamed with the copy suffix and inactive.
      The submission is refused exactly when a required field of the original is empty. */
  lemma {:induction false} DuplicateRoundTrip(b: Backup)
    requires DestinationConsistent(ParamsOf(b))
    ensures CreateBackup(DuplicatePrefill(b))
      == if RequiredFieldsSet(b)
         then Some(ParamsOf(b).(name := b.name + CopySuffix, isActive := false))
         else None
  {
    var v := DuplicatePrefill(b);
    DuplicateBinds(b);
    DuplicateEncoding(b);
    var f := Bind(v).value;
    if RequiredFieldsSet(b) {
      assert Valid(f);
      var p := ToParams(f);
      assert p.destinationId == b.destinationId;
      assert p == ParamsOf(b).(name := b.name + CopySuffix, isActive := false);
    } else {
      assert !Valid(f);
    }
  }

  /** Without the agreement between destination and locality the round trip fails: a
      local task that still names a destination loses it in its copy. */
  lemma InconsistentDestinationLost(b: Backup)
    requires b.isLocal && b.destinationId.valid && RequiredFieldsSet(b)
    ensures CreateBackup(DuplicatePrefill(b)).Some?
    ensures !CreateBackup(DuplicatePrefill(b)).value.destinationId.valid
    ensures CreateBackup(DuplicatePrefill(b)).value.destinationId.uuid == NilUuid
  {
    var v := DuplicatePrefill(b);
    DuplicateEncoding(b);
    assert IntFieldText(v.retentionDays) == v.retentionDays;
    assert Valid(Bind(v).value);
  }

  /** The duplicate form shows the original task: its name with the copy suffix, its
      database and destination chosen, its zone proposed, its locality and dump options
      selected, its schedule, directory and retention filled in; and it is inactive. */
  lemma DuplicateFormShowsOriginal(
    b: Backup, databases: seq<Row>, destinations: seq<Row>, zones: seq<Timezone>, serverZone: string)
    ensures var f := CreateBackupForm(databases, destinations, zones, serverZone, Some(DuplicatePrefill(b)));
      && f.name == Some(b.name + CopySuffix)
      && f.localState == Strconv.FormatBool(b.isLocal)
      && (f.isLocalOptions[0].selected <==> b.isLocal) && (f.isLocalOptions[1].selected <==> !b.isLocal)
      && !f.isActiveOptions[0].selected && f.isActiveOptions[1].selected
      && f.cronExpression == ValueAttr(b.cronExpression)
      && f.destDir == ValueAttr(b.destDir)
      && f.retentionDays == Some(Strconv.Itoa(b.retentionDays))
      && (forall i :: 0 <= i < |databases| ==>
            (f.databaseOptions[i].selected <==> databases[i].id == b.databaseId))
      && (forall i :: 0 <= i < |destinations| ==>
            (f.destinationOptions[i].selected <==> b.destinationId.valid && destinations[i].id == b.destinationId.uuid))
      && (b.timeZone != "" ==>
            forall i :: 0 <= i < |zones| ==> (f.timeZoneOptions[i].selected <==> zones[i].code == b.timeZone))
      && (f.optDataOnlyOptions[0].selected <==> b.optDataOnly) && (f.optDataOnlyOptions[1].selected <==> !b.optDataOnly)
      && (f.optSchemaOnlyOptions[0].selected <==> b.optSchemaOnly) && (f.optSchemaOnlyOptions[1].selected <==> !b.optSchemaOnly)
      && (f.optCleanOptions[0].selected <==> b.optClean) && (f.optCleanOptions[1].selected <==> !b.optClean)
      && (f.optIfExistsOptions[0].selected <==> b.optIfExists) && (f.optIfExistsOptions[1].selected <==> !b.optIfExists)
      && (f.optCreateOptions[0].selected <==> b.optCreate) && (f.optCreateOptions[1].selected <==> !b.optCreate)
      && (f.optNoCommentsOptions[0].selected <==> b.optNoComments) && (f.optNoCommentsOptions[1].selected <==> !b.optNoComments)
  {
    var v := DuplicatePrefill(b);
    var f := CreateBackupForm(databases, destinations, zones, serverZone, Some(v));
    assert Strconv.Itoa(b.retentionDays) != "";
    forall i | 0 <= i < |databases|
      ensures f.databaseOptions[i].selected <==> databases[i].id == b.databaseId
    {
      assert |b.databaseId| == 36;
    }
  }
}
