/**
  The comparison of a prestate database with the active one (scripts/g3-forward-adoption-readonly-witness.py,
  prove), and what an empty list of problems says about the two databases themselves.
*/
module ConservativeExtension {
  import opened Options
  import opened RowEncoding
  import opened RowSets

  /** A stored checksum: "sha256:" and a number in hexadecimal, or some other text. */
  datatype Checksum = Sha256(value: nat) | OtherText(text: string)

  /** A row of schema_migrations; `appliedAt` is None when it is not text. */
  datatype Marker = Marker(version: int, name: string, checksum: Checksum, appliedAt: Option<string>)

  datatype HeaderField = ApplicationId | UserVersion | Encoding | PageSize | AutoVacuum

  /** What inspect_database reports; metadata that is only compared is kept as text, digests as numbers. */
  datatype Observation = Observation(
    schemaDigest: nat, columnsDigest: nat, tables: map<string, Summary>, markers: seq<Marker>,
    header: map<HeaderField, string>, integrity: seq<string>, foreignKeyViolations: nat,
    foreignKeys: map<string, string>, indexList: map<string, string>, tableFlags: map<string, string>,
    indexXinfo: map<string, string>)

  datatype Profile = G3 | Synthetic

  const NEW_TABLES: set<string> := {"agent_grant_attempts", "schedule_reschedule_operations"}
  const HEADER_SAME: seq<HeaderField> := [ApplicationId, UserVersion, Encoding, PageSize, AutoVacuum]
  const MIGRATIONS_TABLE: string := "schema_migrations"
  const INTERNAL_PREFIX: string := "sqlite_"
  const REBUILT_TABLE: string := "scheduling_config_versions"
  const REBUILT_INDEXES: string := "sqlite_autoindex_scheduling_config_versions"
  const MIGRATION11_NAME: string := "business_calendar_and_reschedule"
  const MIGRATION11: Checksum := Sha256(0x13d9f5fc6e09be77742935d0b7e1478c500c69adf7b313eb3b8499c65f0f25e8)
  const PRESTATE_SCHEMA: nat := 0xc9dc6643560b4439f2a635bbc71107eca3b2130589f453dbeb472d2101117e39
  const PRESTATE_COLUMNS: nat := 0x2af54e93c3ed07ca86aa43a2b1a4aad8a263fef2aaefc45c7867939d01b72bf2
  const ACTIVE_SCHEMA: nat := 0x06a1e4b55b0f022bce9d8b2427bd844be6e8b7afe4afa0d6c49547c5ce0c753d
  const ACTIVE_COLUMNS: nat := 0xeb832e1a61e67fda4327ba31dd4a162e9b9e8a965e1318a28f2d5a2041f9d204

  /** The reports cover every table of the schema. */
  predicate Complete(o: Observation) {
    && o.foreignKeys.Keys == o.tables.Keys && o.indexList.Keys == o.tables.Keys && o.tableFlags.Keys == o.tables.Keys
    && (forall f :: f in HEADER_SAME ==> f in o.header)
  }

  datatype Problem =
    | LegacyMismatch(t: string) | RemovedTable(t: string) | UnexpectedAdded(t: string) | AddedNonempty(t: string)
    | HistoryChanged | MarkerCount | Migration11Identity | Migration11Timestamp
    | SchemaDrift(prestate: bool) | ColumnDrift(prestate: bool) | NewTableSet | LegacyCoverage
    | HeaderDrift(field: HeaderField) | IntegrityFailed | ForeignKeysFailed
    | ForeignKeyDrift(t: string) | IndexListDrift(t: string) | TableFlagsDrift(t: string) | IndexDrift(index: string)

  predicate Internal(t: string) { INTERNAL_PREFIX <= t }

  predicate Legacy(pre: Observation, active: Observation, t: string) {
    t in pre.tables && t in active.tables && t != MIGRATIONS_TABLE && !Internal(t)
  }

  function LegacyTables(pre: Observation, active: Observation): set<string> {
    set t | t in pre.tables && Legacy(pre, active, t)
  }

  predicate Digit(c: char) { '0' <= c <= '9' }

  /** A UTC timestamp to the millisecond, by shape only. */
  predicate TimestampShape(s: string) {
    && |s| == 24 && s[4] == s[7] == '-' && s[10] == 'T' && s[13] == s[16] == ':' && s[19] == '.' && s[23] == 'Z'
    && (forall i :: 0 <= i < 24 && i !in {4, 7, 10, 13, 16, 19, 23} ==> Digit(s[i]))
  }

  predicate AddsNewTables(pre: Observation, active: Observation) { active.tables.Keys - pre.tables.Keys == NEW_TABLES }

  predicate Migration11Named(m: Marker) {
    m.version == 11 && m.name == MIGRATION11_NAME && m.checksum == MIGRATION11
  }

  // ---------------------------------------------------------------- exactly when each problem is reported

  predicate TableProblem(pre: Observation, active: Observation, profile: Profile, p: Problem) {
    match p
    case LegacyMismatch(t) =>
      t in pre.tables && t in active.tables && t != MIGRATIONS_TABLE && pre.tables[t] != active.tables[t]
    case RemovedTable(t) => t in pre.tables && t !in active.tables
    case UnexpectedAdded(t) => profile == G3 && t in active.tables && t !in pre.tables && t !in NEW_TABLES
    case AddedNonempty(t) => t in active.tables && t !in pre.tables && active.tables[t].rowCount != 0
    case _ => false
  }

  predicate HistoryProblem(pre: Observation, active: Observation, profile: Profile, p: Problem) {
    match p
    case HistoryChanged => !(pre.markers <= active.markers)
    case MarkerCount => profile == G3 && (|pre.markers| != 10 || |active.markers| != 11)
    case Migration11Identity =>
      profile == G3 && |pre.markers| == 10 && |active.markers| == 11 && !Migration11Named(active.markers[10])
    case Migration11Timestamp =>
      profile == G3 && |pre.markers| == 10 && |active.markers| == 11
      && !(active.markers[10].appliedAt.Some? && TimestampShape(active.markers[10].appliedAt.value))
    case _ => false
  }

  predicate ManifestProblem(pre: Observation, active: Observation, profile: Profile, p: Problem) {
    profile == G3
    && match p
       case SchemaDrift(prestate) =>
         if prestate then pre.schemaDigest != PRESTATE_SCHEMA else active.schemaDigest != ACTIVE_SCHEMA
       case ColumnDrift(prestate) =>
         if prestate then pre.columnsDigest != PRESTATE_COLUMNS else active.columnsDigest != ACTIVE_COLUMNS
       case NewTableSet => !AddsNewTables(pre, active)
       case LegacyCoverage => |LegacyTables(pre, active)| != 38
       case _ => false
  }

  predicate HeaderProblem(pre: Observation, active: Observation, p: Problem)
    requires Complete(pre) && Complete(active)
  {
    match p
    case HeaderDrift(field) => field in HEADER_SAME && pre.header[field] != active.header[field]
    case IntegrityFailed => pre.integrity != ["ok"] || active.integrity != ["ok"]
    case ForeignKeysFailed => pre.foreignKeyViolations != 0 || active.foreignKeyViolations != 0
    case _ => false
  }

  /** The table that the migration rebuilds; its definition is pinned by the schema digest instead. */
  predicate Rebuilt(t: string) { t == REBUILT_TABLE }

  predicate MetadataProblem(pre: Observation, active: Observation, p: Problem)
    requires Complete(pre) && Complete(active)
  {
    match p
    case ForeignKeyDrift(t) => Legacy(pre, active, t) && pre.foreignKeys[t] != active.foreignKeys[t]
    case IndexListDrift(t) => Legacy(pre, active, t) && !Rebuilt(t) && pre.indexList[t] != active.indexList[t]
    case TableFlagsDrift(t) => Legacy(pre, active, t) && !Rebuilt(t) && pre.tableFlags[t] != active.tableFlags[t]
    case _ => false
  }

  predicate IndexProblem(pre: Observation, active: Observation, p: Problem) {
    && p.IndexDrift? && p.index in pre.indexXinfo && p.index in active.indexXinfo
    && !(REBUILT_INDEXES <= p.index)
    && pre.indexXinfo[p.index] != active.indexXinfo[p.index]
  }

  predicate Reported(pre: Observation, active: Observation, profile: Profile, p: Problem)
    requires Complete(pre) && Complete(active)
  {
    || TableProblem(pre, active, profile, p) || HistoryProblem(pre, active, profile, p)
    || ManifestProblem(pre, active, profile, p) || HeaderProblem(pre, active, p)
    || MetadataProblem(pre, active, p) || IndexProblem(pre, active, p)
  }

  // ---------------------------------------------------------------- what none of them means

  /** Every table is kept, the migration records but extended, and what is new is empty. */
  ghost predicate RowsKept(pre: Observation, active: Observation) {
    && (forall t :: t in pre.tables ==>
          t in active.tables && (t != "schema_migrations" ==> pre.tables[t] == active.tables[t]))
    && (forall t :: t in active.tables && t !in pre.tables ==> active.tables[t].rowCount == 0)
    && |pre.markers| <= |active.markers| && active.markers[..|pre.markers|] == pre.markers
  }

  /** Foreign keys of all kept tables; index list and flags of all but the rebuilt one. */
  ghost predicate MetadataKept(pre: Observation, active: Observation)
    requires Complete(pre) && Complete(active)
  {
    forall t :: KeptTable(pre, active, t)
  }

  predicate KeptTable(pre: Observation, active: Observation, t: string)
    requires Complete(pre) && Complete(active)
  {
    t in pre.tables && t in active.tables ==>
      KeptIf(pre, active, t, t != "schema_migrations" && !("sqlite_" <= t), t == "scheduling_config_versions")
  }

  predicate KeptIf(pre: Observation, active: Observation, t: string, legacy: bool, rebuilt: bool)
    requires Complete(pre) && Complete(active) && t in pre.tables && t in active.tables
  {
    legacy ==>
      && pre.foreignKeys[t] == active.foreignKeys[t]
      && (!rebuilt ==> pre.indexList[t] == active.indexList[t] && pre.tableFlags[t] == active.tableFlags[t])
  }

  ghost predicate IndexesKept(pre: Observation, active: Observation) {
    forall i :: i in pre.indexXinfo && i in active.indexXinfo
                && !("sqlite_autoindex_scheduling_config_versions" <= i) ==>
      pre.indexXinfo[i] == active.indexXinfo[i]
  }

  predicate AgreeAt(pre: Observation, active: Observation, f: HeaderField) {
    f in pre.header && f in active.header && pre.header[f] == active.header[f]
  }

  ghost predicate HeadersKept(pre: Observation, active: Observation)
    requires Complete(pre) && Complete(active)
  {
    && AgreeAt(pre, active, ApplicationId) && AgreeAt(pre, active, UserVersion) && AgreeAt(pre, active, Encoding)
    && AgreeAt(pre, active, PageSize) && AgreeAt(pre, active, AutoVacuum)
    && pre.integrity == ["ok"] && active.integrity == ["ok"]
    && pre.foreignKeyViolations == 0 && active.foreignKeyViolations == 0
  }

  ghost predicate Clean(pre: Observation, active: Observation)
    requires Complete(pre) && Complete(active)
  {
    RowsKept(pre, active) && MetadataKept(pre, active) && IndexesKept(pre, active) && HeadersKept(pre, active)
  }

  /** A timestamp such as 2026-10-18T04:05:06.789Z. */
  predicate UtcMillis(s: string) {
    |s| == 24
    && forall i :: 0 <= i < 24 ==>
         if i == 4 || i == 7 then s[i] == '-'
         else if i == 10 then s[i] == 'T'
         else if i == 13 || i == 16 then s[i] == ':'
         else if i == 19 then s[i] == '.'
         else if i == 23 then s[i] == 'Z'
         else '0' <= s[i] <= '9'
  }

  /** The g3 profile: the two schemas, the eleventh migration and its two tables, as they were released. */
  ghost predicate Pinned(pre: Observation, active: Observation) {
    && active.tables.Keys - pre.tables.Keys == {"agent_grant_attempts", "schedule_reschedule_operations"}
    && (var legacy :=
          set t | t in pre.tables && t in active.tables && t != "schema_migrations" && !("sqlite_" <= t);
        |legacy| == 38)
    && |pre.markers| == 10 && |active.markers| == 11
    && active.markers[10].version == 11 && active.markers[10].name == "business_calendar_and_reschedule"
    && active.markers[10].checksum == Sha256(0x13d9f5fc6e09be77742935d0b7e1478c500c69adf7b313eb3b8499c65f0f25e8)
    && active.markers[10].appliedAt.Some? && UtcMillis(active.markers[10].appliedAt.value)
    && pre.schemaDigest == 0xc9dc6643560b4439f2a635bbc71107eca3b2130589f453dbeb472d2101117e39
    && pre.columnsDigest == 0x2af54e93c3ed07ca86aa43a2b1a4aad8a263fef2aaefc45c7867939d01b72bf2
    && active.schemaDigest == 0x06a1e4b55b0f022bce9d8b2427bd844be6e8b7afe4afa0d6c49547c5ce0c753d
    && active.columnsDigest == 0xeb832e1a61e67fda4327ba31dd4a162e9b9e8a965e1318a28f2d5a2041f9d204
  }

  lemma TablesQuiet(pre: Observation, active: Observation, profile: Profile)
    requires Complete(pre) && Complete(active)
    ensures (forall p :: !TableProblem(pre, active, profile, p))
            && !HistoryProblem(pre, active, profile, HistoryChanged)
            <==> RowsKept(pre, active)
                 && (profile == G3 ==> forall t :: t in active.tables && t !in pre.tables ==>
                       t in {"agent_grant_attempts", "schedule_reschedule_operations"})
  {
    if forall p :: !TableProblem(pre, active, profile, p) {
      forall t | t in pre.tables
        ensures t in active.tables && (t != "schema_migrations" ==> pre.tables[t] == active.tables[t])
      {
        assert !TableProblem(pre, active, profile, RemovedTable(t))
          && !TableProblem(pre, active, profile, LegacyMismatch(t));
      }
      forall t | t in active.tables && t !in pre.tables
        ensures active.tables[t].rowCount == 0
        ensures profile == G3 ==> t in {"agent_grant_attempts", "schedule_reschedule_operations"}
      {
        assert !TableProblem(pre, active, profile, AddedNonempty(t))
          && !TableProblem(pre, active, profile, UnexpectedAdded(t));
      }
    }
  }

  lemma MetadataQuiet(pre: Observation, active: Observation)
    requires Complete(pre) && Complete(active)
    ensures (forall p :: !MetadataProblem(pre, active, p)) <==> MetadataKept(pre, active)
  {
    forall t ensures QuietTable(pre, active, t) <==> KeptTable(pre, active, t) { TableMetadataQuiet(pre, active, t); }
    if forall p :: !MetadataProblem(pre, active, p) {
      forall t ensures KeptTable(pre, active, t) { assert QuietTable(pre, active, t); }
    } else {
      var p :| MetadataProblem(pre, active, p);
      MetadataOfLegacy(pre, active, p);
      assert !QuietTable(pre, active, p.t);
    }
  }

  predicate QuietTable(pre: Observation, active: Observation, t: string)
    requires Complete(pre) && Complete(active)
  {
    && !MetadataProblem(pre, active, ForeignKeyDrift(t)) && !MetadataProblem(pre, active, IndexListDrift(t))
    && !MetadataProblem(pre, active, TableFlagsDrift(t))
  }

  lemma TableMetadataQuiet(pre: Observation, active: Observation, t: string)
    requires Complete(pre) && Complete(active)
    ensures QuietTable(pre, active, t) <==> KeptTable(pre, active, t)
  {
    LegacyNamed(pre, active, t);
    RebuiltNamed(t);
    if t in pre.tables && t in active.tables { QuietMeans(pre, active, t); }
  }

  lemma QuietMeans(pre: Observation, active: Observation, t: string)
    requires Complete(pre) && Complete(active) && t in pre.tables && t in active.tables
    ensures QuietTable(pre, active, t) <==> KeptIf(pre, active, t, Legacy(pre, active, t), Rebuilt(t))
  {}

  lemma LegacyNamed(pre: Observation, active: Observation, t: string)
    ensures Legacy(pre, active, t)
            <==> t in pre.tables && t in active.tables && t != "schema_migrations" && !("sqlite_" <= t)
  {}

  lemma RebuiltNamed(t: string)
    ensures Rebuilt(t) <==> t == "scheduling_config_versions"
  {}

  lemma IndexesQuiet(pre: Observation, active: Observation)
    ensures (forall p :: !IndexProblem(pre, active, p)) <==> IndexesKept(pre, active)
  {
    if forall p :: !IndexProblem(pre, active, p) {
      forall i | i in pre.indexXinfo && i in active.indexXinfo
                 && !("sqlite_autoindex_scheduling_config_versions" <= i)
        ensures pre.indexXinfo[i] == active.indexXinfo[i]
      {
        assert !IndexProblem(pre, active, IndexDrift(i));
      }
    }
  }

  lemma EveryHeaderField(f: HeaderField)
    ensures f in HEADER_SAME
  {
    assert HEADER_SAME[0] == ApplicationId && HEADER_SAME[1] == UserVersion && HEADER_SAME[2] == Encoding;
    assert HEADER_SAME[3] == PageSize && HEADER_SAME[4] == AutoVacuum;
  }

  lemma HeadersQuiet(pre: Observation, active: Observation)
    requires Complete(pre) && Complete(active)
    ensures (forall p :: !HeaderProblem(pre, active, p)) <==> HeadersKept(pre, active)
  {
    if forall p :: !HeaderProblem(pre, active, p) {
      forall f: HeaderField ensures AgreeAt(pre, active, f) {
        EveryHeaderField(f);
        assert !HeaderProblem(pre, active, HeaderDrift(f));
      }
      assert !HeaderProblem(pre, active, IntegrityFailed) && !HeaderProblem(pre, active, ForeignKeysFailed);
    }
  }

  lemma TimestampMeans(s: string)
    ensures TimestampShape(s) <==> UtcMillis(s)
  {
    if UtcMillis(s) {
      assert s[4] == s[7] == '-' && s[10] == 'T' && s[13] == s[16] == ':' && s[19] == '.' && s[23] == 'Z';
    }
  }

  lemma LegacyMeans(pre: Observation, active: Observation)
    ensures LegacyTables(pre, active)
            == set t | t in pre.tables && t in active.tables && t != "schema_migrations" && !("sqlite_" <= t)
  {}

  lemma ManifestsQuiet(pre: Observation, active: Observation)
    ensures (forall p :: !ManifestProblem(pre, active, G3, p))
            && (forall p :: HistoryProblem(pre, active, G3, p) ==> p == HistoryChanged)
            <==> Pinned(pre, active)
  {
    LegacyMeans(pre, active);
    if |active.markers| == 11 && active.markers[10].appliedAt.Some? {
      TimestampMeans(active.markers[10].appliedAt.value);
    }
    if && (forall p :: !ManifestProblem(pre, active, G3, p))
       && (forall p :: HistoryProblem(pre, active, G3, p) ==> p == HistoryChanged) {
      assert !ManifestProblem(pre, active, G3, SchemaDrift(true));
      assert !ManifestProblem(pre, active, G3, SchemaDrift(false));
      assert !ManifestProblem(pre, active, G3, ColumnDrift(true));
      assert !ManifestProblem(pre, active, G3, ColumnDrift(false));
      assert !ManifestProblem(pre, active, G3, NewTableSet) && !ManifestProblem(pre, active, G3, LegacyCoverage);
      assert !HistoryProblem(pre, active, G3, MarkerCount);
      assert !HistoryProblem(pre, active, G3, Migration11Identity);
      assert !HistoryProblem(pre, active, G3, Migration11Timestamp);
    }
  }

  lemma SyntheticQuiet(pre: Observation, active: Observation)
    ensures forall p :: !ManifestProblem(pre, active, Synthetic, p)
    ensures forall p :: HistoryProblem(pre, active, Synthetic, p) ==> p == HistoryChanged
  {}

  lemma Stages(pre: Observation, active: Observation, profile: Profile)
    requires Complete(pre) && Complete(active)
    ensures (forall p :: !Reported(pre, active, profile, p))
            <==> && (forall p :: !TableProblem(pre, active, profile, p))
                 && (forall p :: !HistoryProblem(pre, active, profile, p))
                 && (forall p :: !ManifestProblem(pre, active, profile, p))
                 && (forall p :: !HeaderProblem(pre, active, p))
                 && (forall p :: !MetadataProblem(pre, active, p))
                 && (forall p :: !IndexProblem(pre, active, p))
  {
    if forall p :: !Reported(pre, active, profile, p) {
      forall p
        ensures !TableProblem(pre, active, profile, p) && !HistoryProblem(pre, active, profile, p)
        ensures !ManifestProblem(pre, active, profile, p) && !HeaderProblem(pre, active, p)
        ensures !MetadataProblem(pre, active, p) && !IndexProblem(pre, active, p)
      {
        assert !Reported(pre, active, profile, p);
      }
    }
  }

  /** Exactly when nothing is reported, with every name and number as the script has it. */
  lemma NoProblemsExactly(pre: Observation, active: Observation, profile: Profile)
    requires Complete(pre) && Complete(active)
    ensures (forall p :: !Reported(pre, active, profile, p))
            <==> Clean(pre, active) && (profile == G3 ==> Pinned(pre, active))
  {
    Stages(pre, active, profile);
    TablesQuiet(pre, active, profile);
    MetadataQuiet(pre, active);
    IndexesQuiet(pre, active);
    HeadersQuiet(pre, active);
    ManifestsQuiet(pre, active);
    SyntheticQuiet(pre, active);
    HistoryQuiet(pre, active, profile);
    AddedPinned(pre, active);
  }

  lemma HistoryQuiet(pre: Observation, active: Observation, profile: Profile)
    ensures (forall p :: !HistoryProblem(pre, active, profile, p))
            <==> && !HistoryProblem(pre, active, profile, HistoryChanged)
                 && (forall p :: HistoryProblem(pre, active, profile, p) ==> p == HistoryChanged)
  {}

  lemma AddedPinned(pre: Observation, active: Observation)
    ensures Pinned(pre, active) ==> forall t :: t in active.tables && t !in pre.tables ==>
              t in {"agent_grant_attempts", "schedule_reschedule_operations"}
  {
    if Pinned(pre, active) {
      forall t | t in active.tables && t !in pre.tables
        ensures t in {"agent_grant_attempts", "schedule_reschedule_operations"}
      {
        assert t in active.tables.Keys - pre.tables.Keys;
      }
    }
  }

  /** Each problem names what it says: the drift it stands for, and of which side. */
  lemma ProblemsNamed(pre: Observation, active: Observation, profile: Profile, t: string)
    requires Complete(pre) && Complete(active)
    ensures Reported(pre, active, profile, SchemaDrift(true))
            <==> profile == G3
                 && pre.schemaDigest != 0xc9dc6643560b4439f2a635bbc71107eca3b2130589f453dbeb472d2101117e39
    ensures Reported(pre, active, profile, SchemaDrift(false))
            <==> profile == G3
                 && active.schemaDigest != 0x06a1e4b55b0f022bce9d8b2427bd844be6e8b7afe4afa0d6c49547c5ce0c753d
    ensures Reported(pre, active, profile, ColumnDrift(true))
            <==> profile == G3
                 && pre.columnsDigest != 0x2af54e93c3ed07ca86aa43a2b1a4aad8a263fef2aaefc45c7867939d01b72bf2
    ensures Reported(pre, active, profile, ColumnDrift(false))
            <==> profile == G3
                 && active.columnsDigest != 0xeb832e1a61e67fda4327ba31dd4a162e9b9e8a965e1318a28f2d5a2041f9d204
    ensures Reported(pre, active, profile, RemovedTable(t)) <==> t in pre.tables && t !in active.tables
    ensures Reported(pre, active, profile, AddedNonempty(t))
            <==> t in active.tables && t !in pre.tables && active.tables[t].rowCount != 0
  {}

  // ---------------------------------------------------------------- prove, stage by stage

  /** The loops over the tables of both sides, in no particular order. */
  method CompareTables(pre: Observation, active: Observation, profile: Profile) returns (problems: set<Problem>)
    ensures forall p :: p in problems <==> TableProblem(pre, active, profile, p)
  {
    problems := {};
    var common := pre.tables.Keys * active.tables.Keys;
    var todo := common;
    while todo != {}
      invariant todo <= common
      invariant forall p :: p in problems <==>
                  p.LegacyMismatch? && p.t in common - todo && TableProblem(pre, active, profile, p)
    {
      var t :| t in todo;
      todo := todo - {t};
      if t != MIGRATIONS_TABLE && pre.tables[t] != active.tables[t] { problems := problems + {LegacyMismatch(t)}; }
    }
    var removed := pre.tables.Keys - active.tables.Keys;
    problems := problems + set t | t in removed :: RemovedTable(t);
    var added := active.tables.Keys - pre.tables.Keys;
    todo := added;
    while todo != {}
      invariant todo <= added
      invariant forall p :: p in problems <==>
                  && TableProblem(pre, active, profile, p)
                  && (p.LegacyMismatch? || p.RemovedTable? || p.t in added - todo)
    {
      var t :| t in todo;
      todo := todo - {t};
      if profile == G3 && t !in NEW_TABLES { problems := problems + {UnexpectedAdded(t)}; }
      if active.tables[t].rowCount != 0 { problems := problems + {AddedNonempty(t)}; }
    }
  }

  /** The body of the loop over the legacy tables. */
  method CompareTableMetadata(pre: Observation, active: Observation, t: string) returns (problems: set<Problem>)
    requires Complete(pre) && Complete(active) && Legacy(pre, active, t)
    ensures forall p :: p in problems <==> MetadataKind(p) && p.t == t && MetadataProblem(pre, active, p)
  {
    problems := if pre.foreignKeys[t] != active.foreignKeys[t] then {ForeignKeyDrift(t)} else {};
    if !Rebuilt(t) {
      if pre.indexList[t] != active.indexList[t] { problems := problems + {IndexListDrift(t)}; }
      if pre.tableFlags[t] != active.tableFlags[t] { problems := problems + {TableFlagsDrift(t)}; }
    }
  }

  predicate MetadataKind(p: Problem) { p.ForeignKeyDrift? || p.IndexListDrift? || p.TableFlagsDrift? }

  lemma MetadataOfLegacy(pre: Observation, active: Observation, p: Problem)
    requires Complete(pre) && Complete(active) && MetadataProblem(pre, active, p)
    ensures MetadataKind(p) && p.t in LegacyTables(pre, active)
  {}

  method CompareMetadata(pre: Observation, active: Observation) returns (problems: set<Problem>)
    requires Complete(pre) && Complete(active)
    ensures forall p :: p in problems <==> MetadataProblem(pre, active, p)
  {
    problems := {};
    var legacy := LegacyTables(pre, active);
    var todo := legacy;
    while todo != {}
      invariant todo <= legacy
      invariant forall p ::
                  p in problems <==> MetadataKind(p) && p.t in legacy - todo && MetadataProblem(pre, active, p)
    {
      var t :| t in todo;
      todo := todo - {t};
      var found := CompareTableMetadata(pre, active, t);
      problems := problems + found;
    }
    forall p | MetadataProblem(pre, active, p) ensures p in problems { MetadataOfLegacy(pre, active, p); }
  }

  method CompareIndexes(pre: Observation, active: Observation) returns (problems: set<Problem>)
    ensures forall p :: p in problems <==> IndexProblem(pre, active, p)
  {
    problems := {};
    var indexes := pre.indexXinfo.Keys * active.indexXinfo.Keys;
    var todo := indexes;
    while todo != {}
      invariant todo <= indexes
      invariant forall p :: p in problems <==> IndexProblem(pre, active, p) && p.index in indexes - todo
    {
      var index :| index in todo;
      todo := todo - {index};
      if REBUILT_INDEXES <= index { continue; }
      if pre.indexXinfo[index] != active.indexXinfo[index] { problems := problems + {IndexDrift(index)}; }
    }
  }

  method CompareHeaders(pre: Observation, active: Observation) returns (problems: set<Problem>)
    requires Complete(pre) && Complete(active)
    ensures forall p :: p in problems <==> HeaderProblem(pre, active, p)
  {
    problems := {};
    for i := 0 to |HEADER_SAME|
      invariant forall p ::
                  p in problems <==> p.HeaderDrift? && p.field in HEADER_SAME[..i] && HeaderProblem(pre, active, p)
    {
      var field := HEADER_SAME[i];
      if pre.header[field] != active.header[field] { problems := problems + {HeaderDrift(field)}; }
    }
    assert HEADER_SAME[..|HEADER_SAME|] == HEADER_SAME;
    if pre.integrity != ["ok"] || active.integrity != ["ok"] { problems := problems + {IntegrityFailed}; }
    if pre.foreignKeyViolations != 0 || active.foreignKeyViolations != 0 { problems := problems + {ForeignKeysFailed}; }
  }

  method CompareHistory(pre: Observation, active: Observation, profile: Profile) returns (problems: set<Problem>)
    ensures forall p :: p in problems <==> HistoryProblem(pre, active, profile, p)
  {
    problems := {};
    var kept := if |pre.markers| <= |active.markers| then active.markers[..|pre.markers|] else active.markers;
    if pre.markers != kept { problems := problems + {HistoryChanged}; }
    if profile == G3 {
      if |pre.markers| != 10 || |active.markers| != 11 {
        problems := problems + {MarkerCount};
      } else {
        var m := active.markers[|active.markers| - 1];
        if !Migration11Named(m) { problems := problems + {Migration11Identity}; }
        if m.appliedAt.None? || !TimestampShape(m.appliedAt.value) { problems := problems + {Migration11Timestamp}; }
      }
    }
  }

  /** The pinned schema of one side. */
  method CompareSchema(current: Observation, prestate: bool, schema: nat, columns: nat) returns (problems: set<Problem>)
    ensures forall p :: p in problems <==>
              (p == SchemaDrift(prestate) && current.schemaDigest != schema)
              || (p == ColumnDrift(prestate) && current.columnsDigest != columns)
  {
    problems := if current.schemaDigest != schema then {SchemaDrift(prestate)} else {};
    if current.columnsDigest != columns { problems := problems + {ColumnDrift(prestate)}; }
  }

  method CompareCoverage(pre: Observation, active: Observation) returns (problems: set<Problem>)
    ensures forall p :: p in problems <==>
              (p == NewTableSet && !AddsNewTables(pre, active))
              || (p == LegacyCoverage && |LegacyTables(pre, active)| != 38)
  {
    problems := if AddsNewTables(pre, active) then {} else {NewTableSet};
    if |LegacyTables(pre, active)| != 38 { problems := problems + {LegacyCoverage}; }
  }

  method CompareManifests(pre: Observation, active: Observation, profile: Profile) returns (problems: set<Problem>)
    ensures forall p :: p in problems <==> ManifestProblem(pre, active, profile, p)
  {
    problems := {};
    if profile == G3 {
      var prestate := CompareSchema(pre, true, PRESTATE_SCHEMA, PRESTATE_COLUMNS);
      var current := CompareSchema(active, false, ACTIVE_SCHEMA, ACTIVE_COLUMNS);
      var coverage := CompareCoverage(pre, active);
      problems := prestate + current + coverage;
    }
  }

  method Prove(pre: Observation, active: Observation, profile: Profile)
    returns (problems: set<Problem>, legacy: set<string>)
    requires Complete(pre) && Complete(active)
    ensures forall p :: p in problems <==> Reported(pre, active, profile, p)
    ensures problems == {} <==> Clean(pre, active) && (profile == G3 ==> Pinned(pre, active))
    ensures legacy == set t | t in pre.tables && t in active.tables && t != "schema_migrations" && !("sqlite_" <= t)
  {
    var tables := CompareTables(pre, active, profile);
    var history := CompareHistory(pre, active, profile);
    var manifests := CompareManifests(pre, active, profile);
    var headers := CompareHeaders(pre, active);
    var metadata := CompareMetadata(pre, active);
    var indexes := CompareIndexes(pre, active);
    problems := tables + history + manifests + headers + metadata + indexes;
    legacy := LegacyTables(pre, active);
    NoneReported(pre, active, profile, problems);
    LegacyMeans(pre, active);
  }

  lemma NoneReported(pre: Observation, active: Observation, profile: Profile, problems: set<Problem>)
    requires Complete(pre) && Complete(active)
    requires forall p :: p in problems <==> Reported(pre, active, profile, p)
    ensures problems == {} <==> Clean(pre, active) && (profile == G3 ==> Pinned(pre, active))
  {
    NoProblemsExactly(pre, active, profile);
    if problems == {} { assert forall p :: !Reported(pre, active, profile, p); }
  }

  // ---------------------------------------------------------------- what it says about the databases

  datatype Table = Table(columns: seq<string>, rows: seq<Row>)

  type Database = map<string, Table>

  /** The observation was taken of this database. */
  ghost predicate Observes(hash: Hash, db: Database, o: Observation) {
    && Complete(o) && o.tables.Keys == db.Keys
    && (forall t :: t in db ==> SummaryOf(hash, db[t].columns, db[t].rows) == Some(o.tables[t]))
  }

  ghost function AllHashed(hash: Hash, db: Database): set<Bytes> {
    set t, x | t in db && x in Hashed(hash, db[t].rows) :: x
  }

  /** Same columns, same rows equally often. */
  predicate SameTable(a: Table, b: Table) { a.columns == b.columns && multiset(a.rows) == multiset(b.rows) }

  ghost predicate TellsApart(hash: Hash, pre: Database, active: Database) {
    && (forall x :: |hash(x)| == 32)
    && CollisionFree(hash, AllHashed(hash, pre) + AllHashed(hash, active))
  }

  lemma TableHashed(hash: Hash, db: Database, t: string)
    requires t in db
    ensures Hashed(hash, db[t].rows) <= AllHashed(hash, db)
  {}

  /** A common table is reported exactly when its columns or its rows differ. */
  lemma MismatchMeansDifferentTable(hash: Hash, preDb: Database, activeDb: Database, pre: Observation,
                                    active: Observation, t: string)
    requires TellsApart(hash, preDb, activeDb) && Observes(hash, preDb, pre) && Observes(hash, activeDb, active)
    requires t in preDb && t in activeDb
    ensures pre.tables[t] == active.tables[t] <==> SameTable(preDb[t], activeDb[t])
  {
    TableHashed(hash, preDb, t);
    TableHashed(hash, activeDb, t);
    CollisionFreeWithin(hash, AllHashed(hash, preDb) + AllHashed(hash, activeDb),
                        Hashed(hash, preDb[t].rows) + Hashed(hash, activeDb[t].rows));
    SummaryDecidesTable(hash, preDb[t].columns, preDb[t].rows, activeDb[t].columns, activeDb[t].rows);
  }

  lemma CollisionFreeWithin(hash: Hash, inputs: set<Bytes>, some: set<Bytes>)
    requires CollisionFree(hash, inputs) && some <= inputs
    ensures CollisionFree(hash, some)
  {}

  /** The active database only extends the prestate. */
  ghost predicate Extends(preDb: Database, activeDb: Database, pre: Observation, active: Observation) {
    && (forall t :: t in preDb ==> t in activeDb && (t != MIGRATIONS_TABLE ==> SameTable(preDb[t], activeDb[t])))
    && (forall t :: t in activeDb && t !in preDb ==> activeDb[t].rows == [])
    && pre.markers <= active.markers
  }

  /** The checks that speak about rows, and the history check, find nothing. */
  ghost predicate RowChecksPass(pre: Observation, active: Observation, profile: Profile) {
    && (forall p :: TableProblem(pre, active, profile, p) ==> p.UnexpectedAdded?)
    && !HistoryProblem(pre, active, profile, HistoryChanged)
  }

  lemma RowChecksForTables(pre: Observation, active: Observation, profile: Profile)
    ensures RowChecksPass(pre, active, profile)
            <==> && (forall t :: t in pre.tables ==>
                       t in active.tables && (t != MIGRATIONS_TABLE ==> pre.tables[t] == active.tables[t]))
                 && (forall t :: t in active.tables && t !in pre.tables ==> active.tables[t].rowCount == 0)
                 && pre.markers <= active.markers
  {
    if RowChecksPass(pre, active, profile) {
      forall t | t in pre.tables
        ensures t in active.tables && (t != MIGRATIONS_TABLE ==> pre.tables[t] == active.tables[t])
      {
        assert !TableProblem(pre, active, profile, RemovedTable(t))
          && !TableProblem(pre, active, profile, LegacyMismatch(t));
      }
      forall t | t in active.tables && t !in pre.tables ensures active.tables[t].rowCount == 0 {
        assert !TableProblem(pre, active, profile, AddedNonempty(t));
      }
    }
  }

  lemma AddedRows(hash: Hash, db: Database, o: Observation, t: string)
    requires Observes(hash, db, o) && t in db
    ensures o.tables[t].rowCount == 0 <==> db[t].rows == []
  {
    assert SummaryOf(hash, db[t].columns, db[t].rows) == Some(o.tables[t]);
  }

  /** Those checks pass exactly when the active database only extends the prestate. */
  lemma RowChecksDecideExtension(hash: Hash, preDb: Database, activeDb: Database, pre: Observation, active: Observation,
                                 profile: Profile)
    requires TellsApart(hash, preDb, activeDb) && Observes(hash, preDb, pre) && Observes(hash, activeDb, active)
    ensures RowChecksPass(pre, active, profile) <==> Extends(preDb, activeDb, pre, active)
  {
    RowChecksForTables(pre, active, profile);
    forall t | t in preDb && t in activeDb
      ensures pre.tables[t] == active.tables[t] <==> SameTable(preDb[t], activeDb[t])
    {
      MismatchMeansDifferentTable(hash, preDb, activeDb, pre, active, t);
    }
    forall t | t in activeDb ensures active.tables[t].rowCount == 0 <==> activeDb[t].rows == [] {
      AddedRows(hash, activeDb, active, t);
    }
    SameVerdict(preDb, activeDb, pre, active);
  }

  lemma SameVerdict(preDb: Database, activeDb: Database, pre: Observation, active: Observation)
    requires pre.tables.Keys == preDb.Keys && active.tables.Keys == activeDb.Keys
    requires forall t ::
               t in preDb && t in activeDb ==> (pre.tables[t] == active.tables[t] <==> SameTable(preDb[t], activeDb[t]))
    requires forall t :: t in activeDb ==> (active.tables[t].rowCount == 0 <==> activeDb[t].rows == [])
    ensures Extends(preDb, activeDb, pre, active)
            <==> && (forall t :: t in pre.tables ==>
                       t in active.tables && (t != MIGRATIONS_TABLE ==> pre.tables[t] == active.tables[t]))
                 && (forall t :: t in active.tables && t !in pre.tables ==> active.tables[t].rowCount == 0)
                 && pre.markers <= active.markers
  {}

  /** An empty list of problems is sound for the two databases themselves. */
  lemma NoProblemsSound(hash: Hash, preDb: Database, activeDb: Database, pre: Observation, active: Observation,
                        profile: Profile)
    requires TellsApart(hash, preDb, activeDb) && Observes(hash, preDb, pre) && Observes(hash, activeDb, active)
    requires forall p :: !Reported(pre, active, profile, p)
    ensures Extends(preDb, activeDb, pre, active)
  {
    forall p ensures !TableProblem(pre, active, profile, p) { assert !Reported(pre, active, profile, p); }
    assert !Reported(pre, active, profile, HistoryChanged);
    RowChecksDecideExtension(hash, preDb, activeDb, pre, active, profile);
  }

  /** Under the g3 profile the extension is exactly one migration and its two tables, both still empty. */
  lemma G3Sound(hash: Hash, preDb: Database, activeDb: Database, pre: Observation, active: Observation)
    requires TellsApart(hash, preDb, activeDb) && Observes(hash, preDb, pre) && Observes(hash, activeDb, active)
    requires forall p :: !Reported(pre, active, G3, p)
    ensures activeDb.Keys == preDb.Keys + NEW_TABLES && forall t :: t in NEW_TABLES ==> activeDb[t].rows == []
    ensures |active.markers| == 11 && active.markers == pre.markers + [active.markers[10]]
    ensures Migration11Named(active.markers[10])
  {
    NoProblemsSound(hash, preDb, activeDb, pre, active, G3);
    G3Markers(pre, active);
    G3Tables(pre, active);
  }

  lemma G3Markers(pre: Observation, active: Observation)
    requires Complete(pre) && Complete(active) && forall p :: !Reported(pre, active, G3, p)
    ensures |active.markers| == 11 && active.markers == pre.markers + [active.markers[10]]
    ensures Migration11Named(active.markers[10])
  {
    assert !Reported(pre, active, G3, MarkerCount) && !Reported(pre, active, G3, HistoryChanged);
    assert !Reported(pre, active, G3, Migration11Identity);
    assert active.markers == active.markers[..10] + [active.markers[10]];
  }

  lemma G3Tables(pre: Observation, active: Observation)
    requires Complete(pre) && Complete(active) && forall p :: !Reported(pre, active, G3, p)
    ensures active.tables.Keys - pre.tables.Keys == NEW_TABLES
  {
    assert !Reported(pre, active, G3, NewTableSet);
  }
}
