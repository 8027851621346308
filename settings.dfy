/** The plugin settings: three declarative sub-schemas whose every field
    falls back to its own default, and `sanitizeSettings`, which merges
    stored settings over the defaults and parses the result. */
module SettingsSchema {
  import opened Wrappers
  import opened JsValues
  import opened Constants

  /** One schema field: its type check, bounds and `.catch` default. */
  datatype Rule =
    | StringRule(stringDefault: string)
    | BoolRule(boolDefault: bool)
    | IntRule(min: int, max: Option<int>, intDefault: int)

  /** Whether a value passes the field's checks (`z.string()`, `z.boolean()`,
      or `z.number().int()` with its bounds). */
  predicate Accepts(rule: Rule, v: Value) {
    match rule
    case StringRule(_) => v.Str?
    case BoolRule(_) => v.Bool?
    case IntRule(lo, hi, _) => IsInteger(v) && lo <= IntOf(v) && (hi.Some? ==> IntOf(v) <= hi.value)
  }

  /** The value `.catch` substitutes. */
  function DefaultValue(rule: Rule): Value {
    match rule
    case StringRule(d) => Str(d)
    case BoolRule(d) => Bool(d)
    case IntRule(_, _, d) => IntValue(d)
  }

  /** A field parsed with `.catch`: a missing or rejected value becomes the
      default. */
  function CatchField(rule: Rule, input: Option<Value>): (v: Value)
    ensures input.Some? && Accepts(rule, input.value) ==> v == input.value
    ensures input.None? || !Accepts(rule, input.value) ==> v == DefaultValue(rule)
  {
    if input.Some? && Accepts(rule, input.value) then input.value else DefaultValue(rule)
  }

  /** `GeneralSettingsSchema`. */
  const GeneralSettingsSchema: map<string, Rule> := map[
    "directory" := StringRule(DefaultDirectory),
    "enabled" := BoolRule(DefaultEnabled),
    "showRibbonIcon" := BoolRule(DefaultShowRibbonIcon),
    "debugMode" := BoolRule(DefaultDebugMode)
  ]

  /** `NotificationsSettingsSchema`. */
  const NotificationsSettingsSchema: map<string, Rule> := map[
    "enableNotifications" := BoolRule(DefaultEnableNotifications),
    "notificationCheckIntervalMinutes" := IntRule(1, Some(1440), DefaultNotificationCheckIntervalMinutes),
    "notificationLeadTimeHours" := IntRule(0, Some(168), DefaultNotificationLeadTimeHours),
    "showNotificationOnStartup" := BoolRule(DefaultShowNotificationOnStartup)
  ]

  /** `PropsSettingsSchema`: the frontmatter property names. */
  const PropsSettingsSchema: map<string, Rule> := map[
    "segmentProp" := StringRule(DefaultSegmentProp),
    "cityProp" := StringRule(DefaultCityProp),
    "originalCityProp" := StringRule(DefaultOriginalCityProp),
    "bornOnProp" := StringRule(DefaultBornOnProp),
    "firstContactProp" := StringRule(DefaultFirstContactProp),
    "secondContactProp" := StringRule(DefaultSecondContactProp),
    "lastContactProp" := StringRule(DefaultLastContactProp),
    "contactChannelProp" := StringRule(DefaultContactChannelProp),
    "positionProp" := StringRule(DefaultPositionProp),
    "statusProp" := StringRule(DefaultStatusProp),
    "statusBusinessProp" := StringRule(DefaultStatusBusinessProp),
    "toldAboutBusinessProp" := StringRule(DefaultToldAboutBusinessProp),
    "urgencyProp" := StringRule(DefaultUrgencyProp),
    "likabilityProp" := StringRule(DefaultLikabilityProp),
    "socialEnergyProp" := StringRule(DefaultSocialEnergyProp),
    "reliabilityProp" := StringRule(DefaultReliabilityProp),
    "relationshipGoalProp" := StringRule(DefaultRelationshipGoalProp),
    "relationshipProp" := StringRule(DefaultRelationshipProp),
    "ambitionsProp" := StringRule(DefaultAmbitionsProp),
    "dreamsProp" := StringRule(DefaultDreamsProp),
    "interestsProp" := StringRule(DefaultInterestsProp),
    "valuesProp" := StringRule(DefaultValuesProp),
    "personalityTypeProp" := StringRule(DefaultPersonalityTypeProp),
    "nextStepProp" := StringRule(DefaultNextStepProp),
    "followUpDateProp" := StringRule(DefaultFollowUpDateProp),
    "datesProp" := StringRule(DefaultDatesProp),
    "historyNoteProp" := StringRule(DefaultHistoryNoteProp)
  ]

  /** The field `.extend` adds last: a positive integer, 1 by default. */
  const VersionSchema: map<string, Rule> := map["version" := IntRule(1, None, 1)]

  /** `PeopleManagerSettingsSchema`: the sub-schemas extended one after the
      other (a later field of the same name would replace an earlier one). */
  const PeopleManagerSettingsSchema: map<string, Rule> :=
    GeneralSettingsSchema + NotificationsSettingsSchema + PropsSettingsSchema + VersionSchema

  /** A field whose `.catch` default passes the field's own checks. */
  predicate DefaultAccepted(rule: Rule) {
    Accepts(rule, DefaultValue(rule))
  }

  /** Parsing an object with a `.strip()` schema whose every field has a
      `.catch`: exactly the schema's fields, each caught separately. Such a
      parse cannot fail. */
  function ParseStrip(schema: map<string, Rule>, input: map<string, Value>): (r: map<string, Value>)
    ensures r.Keys == schema.Keys
    ensures forall k :: k in r && DefaultAccepted(schema[k]) ==> Accepts(schema[k], r[k])
    ensures forall k :: k in r && k in input && Accepts(schema[k], input[k]) ==> r[k] == input[k]
    ensures forall k :: k in r && k !in input ==> r[k] == DefaultValue(schema[k])
  {
    map k | k in schema :: CatchField(schema[k], if k in input then Some(input[k]) else None)
  }

  /** A settings object the schema accepts as it is. */
  predicate Conforms(settings: map<string, Value>) {
    && settings.Keys == PeopleManagerSettingsSchema.Keys
    && forall k :: k in settings ==> Accepts(PeopleManagerSettingsSchema[k], settings[k])
  }

  /** `DEFAULT_SETTINGS`: version 1 followed by each sub-schema parsed from
      the empty object. */
  const DefaultSettings: map<string, Value> :=
    map["version" := IntValue(1)]
      + ParseStrip(GeneralSettingsSchema, map[])
      + ParseStrip(NotificationsSettingsSchema, map[])
      + ParseStrip(PropsSettingsSchema, map[])

  /** The own properties of the stored value: none unless it is an object. */
  function Fields(settings: Raw): map<string, Value> {
    if settings.Record? then settings.fields else map[]
  }

  /** `{...DEFAULT_SETTINGS, ...settings}`. */
  function MergeOverDefaults(settings: Raw): map<string, Value> {
    DefaultSettings + Fields(settings)
  }

  /** `sanitizeSettings`: the stored settings merged over the defaults and
      parsed by the full schema. */
  function SanitizeSettings(settings: Raw): (r: map<string, Value>)
    ensures Conforms(r)
  {
    DefaultsConform();
    ParseStrip(PeopleManagerSettingsSchema, MergeOverDefaults(settings))
  }

  /** The value of a property of the stored settings, if it has one. */
  function Property(settings: Raw, k: string): Option<Value> {
    if settings.Record? && k in settings.fields then Some(settings.fields[k]) else None
  }

  // ---------------------------------------------------------------------
  // Facts about `.strip()` parsing that hold for every schema.
  // ---------------------------------------------------------------------

  /** Parsing two schemas from the empty object and spreading the results
      is parsing their extension. */
  lemma ParseEmptyOfExtend(a: map<string, Rule>, b: map<string, Rule>)
    ensures ParseStrip(a, map[]) + ParseStrip(b, map[]) == ParseStrip(a + b, map[])
  {
  }

  /** Spreading an input over the schema's own defaults before parsing
      changes nothing: `.catch` would have supplied the same values. */
  lemma ParseOverDefaults(schema: map<string, Rule>, input: map<string, Value>)
    ensures ParseStrip(schema, ParseStrip(schema, map[]) + input) == ParseStrip(schema, input)
  {
  }

  /** A property the schema does not name has no effect on the parse. */
  lemma ParseIgnoresUnknown(schema: map<string, Rule>, input: map<string, Value>, k: string, v: Value)
    requires k !in schema
    ensures ParseStrip(schema, input[k := v]) == ParseStrip(schema, input)
  {
  }

  /** An input whose every field is accepted parses to itself. */
  lemma ParseKeepsAccepted(schema: map<string, Rule>, input: map<string, Value>)
    requires input.Keys == schema.Keys
    requires forall k :: k in input ==> Accepts(schema[k], input[k])
    ensures ParseStrip(schema, input) == input
  {
  }

  /** Every field's default passes its own checks when each part's defaults do. */
  lemma DefaultsAcceptedOfExtend(a: map<string, Rule>, b: map<string, Rule>)
    requires forall k :: k in a ==> DefaultAccepted(a[k])
    requires forall k :: k in b ==> DefaultAccepted(b[k])
    ensures forall k :: k in a + b ==> DefaultAccepted((a + b)[k])
  {
  }

  // ---------------------------------------------------------------------
  // Facts about the plugin's own schema.
  // ---------------------------------------------------------------------

  /** No field name occurs in two sub-schemas, so `.extend` replaces nothing. */
  lemma SchemasDisjoint()
    ensures GeneralSettingsSchema.Keys !! NotificationsSettingsSchema.Keys
    ensures GeneralSettingsSchema.Keys !! PropsSettingsSchema.Keys
    ensures NotificationsSettingsSchema.Keys !! PropsSettingsSchema.Keys
    ensures "version" !in GeneralSettingsSchema && "version" !in NotificationsSettingsSchema
    ensures "version" !in PropsSettingsSchema
  {
    GeneralNotInNotifications();
    GeneralNotInProps();
    NotificationsNotInProps();
    VersionNotInParts();
  }

  lemma GeneralNotInNotifications()
    ensures GeneralSettingsSchema.Keys !! NotificationsSettingsSchema.Keys
  {
  }

  lemma GeneralNotInProps()
    ensures GeneralSettingsSchema.Keys !! PropsSettingsSchema.Keys
  {
  }

  lemma NotificationsNotInProps()
    ensures NotificationsSettingsSchema.Keys !! PropsSettingsSchema.Keys
  {
  }

  lemma VersionNotInParts()
    ensures "version" !in GeneralSettingsSchema && "version" !in NotificationsSettingsSchema
    ensures "version" !in PropsSettingsSchema
  {
  }

  /** Spreading is associative. */
  lemma ExtendAssociative(a: map<string, Rule>, b: map<string, Rule>, c: map<string, Rule>)
    ensures a + b + c == a + (b + c)
  {
  }

  /** Spreading objects with no property in common does not depend on order. */
  lemma ExtendCommutes(a: map<string, Rule>, b: map<string, Rule>)
    requires a.Keys !! b.Keys
    ensures a + b == b + a
  {
  }

  /** Putting `version` first, as `DEFAULT_SETTINGS` does, or last, as the
      schema does, makes no difference. */
  lemma VersionCommutes()
    ensures VersionSchema + GeneralSettingsSchema + NotificationsSettingsSchema + PropsSettingsSchema
         == PeopleManagerSettingsSchema
  {
    VersionNotInParts();
    var gn := GeneralSettingsSchema + NotificationsSettingsSchema;
    var rest := gn + PropsSettingsSchema;
    ExtendAssociative(VersionSchema, GeneralSettingsSchema, NotificationsSettingsSchema);
    ExtendAssociative(VersionSchema, gn, PropsSettingsSchema);
    assert VersionSchema.Keys !! rest.Keys;
    ExtendCommutes(VersionSchema, rest);
  }

  /** `DEFAULT_SETTINGS` is the full schema parsed from the empty object:
      every field at its own `.catch` default. */
  lemma DefaultSettingsAreSchemaDefaults()
    ensures DefaultSettings == ParseStrip(PeopleManagerSettingsSchema, map[])
    ensures DefaultSettings.Keys == PeopleManagerSettingsSchema.Keys
    ensures forall k :: k in DefaultSettings ==> DefaultSettings[k] == DefaultValue(PeopleManagerSettingsSchema[k])
  {
    assert map["version" := IntValue(1)] == ParseStrip(VersionSchema, map[]);
    ParseEmptyOfExtend(VersionSchema, GeneralSettingsSchema);
    ParseEmptyOfExtend(VersionSchema + GeneralSettingsSchema, NotificationsSettingsSchema);
    ParseEmptyOfExtend(VersionSchema + GeneralSettingsSchema + NotificationsSettingsSchema, PropsSettingsSchema);
    VersionCommutes();
  }

  lemma GeneralDefaultsAccepted()
    ensures forall k :: k in GeneralSettingsSchema ==> DefaultAccepted(GeneralSettingsSchema[k])
  {
  }

  lemma NotificationsDefaultsAccepted()
    ensures forall k :: k in NotificationsSettingsSchema ==> DefaultAccepted(NotificationsSettingsSchema[k])
  {
  }

  lemma PropsDefaultsAccepted()
    ensures forall k :: k in PropsSettingsSchema ==> DefaultAccepted(PropsSettingsSchema[k])
  {
  }

  /** Every default passes its own field's checks; in particular 60 lies in
      [1, 1440] and 24 in [0, 168]. */
  lemma DefaultsConform()
    ensures forall k :: k in PeopleManagerSettingsSchema ==> DefaultAccepted(PeopleManagerSettingsSchema[k])
    ensures Conforms(DefaultSettings)
  {
    GeneralDefaultsAccepted();
    NotificationsDefaultsAccepted();
    PropsDefaultsAccepted();
    DefaultsAcceptedOfExtend(GeneralSettingsSchema, NotificationsSettingsSchema);
    DefaultsAcceptedOfExtend(GeneralSettingsSchema + NotificationsSettingsSchema, PropsSettingsSchema);
    DefaultsAcceptedOfExtend(GeneralSettingsSchema + NotificationsSettingsSchema + PropsSettingsSchema, VersionSchema);
    DefaultSettingsAreSchemaDefaults();
  }

  /** Merging over the defaults is redundant: sanitising parses the stored
      properties alone. */
  lemma SanitizeParsesFields(settings: Raw)
    ensures SanitizeSettings(settings) == ParseStrip(PeopleManagerSettingsSchema, Fields(settings))
  {
    DefaultSettingsAreSchemaDefaults();
    ParseOverDefaults(PeopleManagerSettingsSchema, Fields(settings));
  }

  /** Each field of the result depends on that property of the input alone:
      a supplied value the field accepts is kept, and a missing or rejected
      one is replaced by the field's own default. */
  lemma SanitizeFieldwise(settings: Raw, k: string)
    requires k in PeopleManagerSettingsSchema
    ensures SanitizeSettings(settings)[k] == CatchField(PeopleManagerSettingsSchema[k], Property(settings, k))
  {
    SanitizeParsesFields(settings);
  }

  /** Input that is not an object (`null` included) gives the defaults. */
  lemma SanitizeNonObject(settings: Raw)
    requires settings.NonRecord?
    ensures SanitizeSettings(settings) == DefaultSettings
  {
    SanitizeParsesFields(settings);
    DefaultSettingsAreSchemaDefaults();
  }

  /** Settings the schema accepts come back unchanged. */
  lemma SanitizeKeepsConforming(settings: map<string, Value>)
    requires Conforms(settings)
    ensures SanitizeSettings(Record(settings)) == settings
  {
    SanitizeParsesFields(Record(settings));
    ParseKeepsAccepted(PeopleManagerSettingsSchema, settings);
  }

  /** `sanitizeSettings` is idempotent, and `DEFAULT_SETTINGS` is a fixed
      point of it. */
  lemma SanitizeIdempotent(settings: Raw)
    ensures SanitizeSettings(Record(SanitizeSettings(settings))) == SanitizeSettings(settings)
    ensures SanitizeSettings(Record(DefaultSettings)) == DefaultSettings
  {
    SanitizeKeepsConforming(SanitizeSettings(settings));
    DefaultsConform();
    SanitizeKeepsConforming(DefaultSettings);
  }

  /** A property outside the schema has no effect on the result: it is
      stripped. */
  lemma SanitizeStripsUnknown(fields: map<string, Value>, k: string, v: Value)
    requires k !in PeopleManagerSettingsSchema
    ensures SanitizeSettings(Record(fields[k := v])) == SanitizeSettings(Record(fields))
    ensures k !in SanitizeSettings(Record(fields[k := v]))
  {
    SanitizeParsesFields(Record(fields[k := v]));
    SanitizeParsesFields(Record(fields));
    ParseIgnoresUnknown(PeopleManagerSettingsSchema, fields, k, v);
  }

  /** A field of the earlier schema that the later one does not name keeps
      its rule through `.extend`. */
  lemma ExtendKeeps(a: map<string, Rule>, b: map<string, Rule>, k: string)
    requires k in a && k !in b
    ensures k in a + b && (a + b)[k] == a[k]
  {
  }

  /** The rule the full schema gives a field of the notification settings. */
  lemma NotificationsRule(k: string)
    requires k in NotificationsSettingsSchema
    ensures k in PeopleManagerSettingsSchema && PeopleManagerSettingsSchema[k] == NotificationsSettingsSchema[k]
  {
    NotificationsNotInProps();
    VersionNotInParts();
    var g := GeneralSettingsSchema;
    var n := NotificationsSettingsSchema;
    var p := PropsSettingsSchema;
    assert k in g + n && (g + n)[k] == n[k];
    ExtendKeeps(g + n, p, k);
    assert k != "version";
    ExtendKeeps(g + n + p, VersionSchema, k);
  }

  /** The rule the full schema gives a field of the general settings. */
  lemma GeneralRule(k: string)
    requires k in GeneralSettingsSchema
    ensures k in PeopleManagerSettingsSchema && PeopleManagerSettingsSchema[k] == GeneralSettingsSchema[k]
  {
    SchemasDisjoint();
    var g := GeneralSettingsSchema;
    var n := NotificationsSettingsSchema;
    var p := PropsSettingsSchema;
    ExtendKeeps(g, n, k);
    ExtendKeeps(g + n, p, k);
    assert k != "version";
    ExtendKeeps(g + n + p, VersionSchema, k);
  }

  lemma DirectoryRule()
    ensures "directory" in PeopleManagerSettingsSchema
    ensures PeopleManagerSettingsSchema["directory"] == StringRule(DefaultDirectory)
  {
    GeneralRule("directory");
  }

  lemma EnabledRule()
    ensures "enabled" in PeopleManagerSettingsSchema
    ensures PeopleManagerSettingsSchema["enabled"] == BoolRule(DefaultEnabled)
  {
    GeneralRule("enabled");
  }

  lemma IntervalRule()
    ensures "notificationCheckIntervalMinutes" in PeopleManagerSettingsSchema
    ensures PeopleManagerSettingsSchema["notificationCheckIntervalMinutes"]
         == IntRule(1, Some(1440), DefaultNotificationCheckIntervalMinutes)
  {
    NotificationsRule("notificationCheckIntervalMinutes");
  }

  lemma LeadTimeRule()
    ensures "notificationLeadTimeHours" in PeopleManagerSettingsSchema
    ensures PeopleManagerSettingsSchema["notificationLeadTimeHours"]
         == IntRule(0, Some(168), DefaultNotificationLeadTimeHours)
  {
    NotificationsRule("notificationLeadTimeHours");
  }

  /** The check interval is always an integer in [1, 1440]. */
  lemma SanitizedIntervalBounds(settings: Raw)
    ensures var r := SanitizeSettings(settings);
      && "notificationCheckIntervalMinutes" in r
      && IsInteger(r["notificationCheckIntervalMinutes"])
      && 1 <= IntOf(r["notificationCheckIntervalMinutes"]) <= 1440
  {
    IntervalRule();
    SanitizeFieldwise(settings, "notificationCheckIntervalMinutes");
  }

  /** The lead time is always an integer in [0, 168]. */
  lemma SanitizedLeadTimeBounds(settings: Raw)
    ensures var r := SanitizeSettings(settings);
      && "notificationLeadTimeHours" in r
      && IsInteger(r["notificationLeadTimeHours"])
      && 0 <= IntOf(r["notificationLeadTimeHours"]) <= 168
  {
    LeadTimeRule();
    SanitizeFieldwise(settings, "notificationLeadTimeHours");
  }

  /** The version is always a positive integer. */
  lemma SanitizedVersionBounds(settings: Raw)
    ensures var r := SanitizeSettings(settings);
      "version" in r && IsInteger(r["version"]) && IntOf(r["version"]) >= 1
  {
    SanitizeFieldwise(settings, "version");
  }

  /** `sanitizeSettings(null)` has directory "People" and enabled true. */
  lemma SanitizeNullExample()
    ensures var r := SanitizeSettings(NonRecord);
      "directory" in r && r["directory"] == Str("People") && "enabled" in r && r["enabled"] == Bool(true)
  {
    SanitizeNonObject(NonRecord);
    DefaultDirectoryAndEnabled();
  }

  /** `DEFAULT_SETTINGS` has directory "People" and enabled true. */
  lemma DefaultDirectoryAndEnabled()
    ensures "directory" in DefaultSettings && DefaultSettings["directory"] == Str("People")
    ensures "enabled" in DefaultSettings && DefaultSettings["enabled"] == Bool(true)
  {
    DirectoryRule();
    EnabledRule();
    DefaultSettingsAreSchemaDefaults();
  }

  /** A stored property the schema accepts is kept. */
  lemma SanitizeKeepsSupplied(fields: map<string, Value>, k: string)
    requires k in PeopleManagerSettingsSchema && k in fields
    requires Accepts(PeopleManagerSettingsSchema[k], fields[k])
    ensures var r := SanitizeSettings(Record(fields));
      k in r && r[k] == fields[k]
  {
    SanitizeParsesFields(Record(fields));
  }

  /** A property missing from the stored object takes its default. */
  lemma SanitizeDefaultsMissing(fields: map<string, Value>, k: string)
    requires k in PeopleManagerSettingsSchema && k !in fields
    ensures var r := SanitizeSettings(Record(fields));
      k in r && r[k] == DefaultValue(PeopleManagerSettingsSchema[k])
  {
    SanitizeParsesFields(Record(fields));
  }

  /** A partial object keeps the directory it gives ... */
  lemma SanitizeKeepsDirectory(fields: map<string, Value>)
    requires "directory" in fields && fields["directory"].Str?
    ensures var r := SanitizeSettings(Record(fields));
      "directory" in r && r["directory"] == fields["directory"]
  {
    DirectoryRule();
    SanitizeKeepsSupplied(fields, "directory");
  }

  /** ... and is enabled when it does not say otherwise. */
  lemma SanitizeDefaultsEnabled(fields: map<string, Value>)
    requires "enabled" !in fields
    ensures var r := SanitizeSettings(Record(fields));
      "enabled" in r && r["enabled"] == Bool(true)
  {
    EnabledRule();
    SanitizeDefaultsMissing(fields, "enabled");
  }

  /** A settings object with a string `directory`, as every sanitised one
      has. */
  predicate HasDirectory(settings: map<string, Value>) {
    "directory" in settings && settings["directory"].Str?
  }

  lemma ConformsHasDirectory(settings: map<string, Value>)
    requires Conforms(settings)
    ensures HasDirectory(settings)
  {
    DirectoryRule();
  }

  /** `settings.directory`. */
  function Directory(settings: map<string, Value>): string
    requires HasDirectory(settings)
  {
    settings["directory"].s
  }
}
