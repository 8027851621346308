/** The person note's frontmatter schema, its sanitiser, and the records the
    indexer and the people cache pass around. */
module PersonTypes {
  import opened JsValues

  /** A note's frontmatter: property name to value. */
  type Frontmatter = map<string, Value>

  /** The JavaScript types a known property may hold. */
  datatype TypeTag = TString | TNumber | TBoolean

  const StringOnly: set<TypeTag> := {TString}
  const StringOrNumber: set<TypeTag> := {TString, TNumber}
  const BooleanOrString: set<TypeTag> := {TBoolean, TString}

  /** `PersonFrontmatterSchema`: every known property and the types it may
      hold. Every known property is optional and any other property passes
      through untouched. */
  const PersonFrontmatterSchema: map<string, set<TypeTag>> := map[
    "segment" := StringOnly,
    "city" := StringOnly,
    "original-city" := StringOnly,
    "born-on" := StringOnly,
    "first-contact" := StringOnly,
    "second-contact" := StringOnly,
    "last-contact" := StringOnly,
    "contact-channel" := StringOnly,
    "position" := StringOnly,
    "status" := StringOnly,
    "status-business" := StringOnly,
    "told-about-business" := BooleanOrString,
    "urgency" := StringOrNumber,
    "likability" := StringOrNumber,
    "social-energy" := StringOrNumber,
    "reliability" := StringOrNumber,
    "relationship-goal" := StringOnly,
    "relationship" := StringOnly,
    "ambitions" := StringOnly,
    "dreams" := StringOnly,
    "interests" := StringOnly,
    "values" := StringOnly,
    "personality-type" := StringOnly,
    "next-step" := StringOnly,
    "follow-up-date-notification" := StringOnly,
    "dates" := StringOnly,
    "history-note" := StringOnly
  ]

  /** Whether `v` passes `z.string()`, `z.number()` or `z.boolean()`
      for one of the allowed types. `z.number()` rejects NaN. */
  predicate AllowedValue(allowed: set<TypeTag>, v: Value) {
    || (TString in allowed && v.Str?)
    || (TNumber in allowed && v.Num? && !v.n.NaN?)
    || (TBoolean in allowed && v.Bool?)
  }

  /** Whether an object passes `PersonFrontmatterSchema`: every known
      property that is present holds an allowed type. */
  predicate ConformsToSchema(fm: Frontmatter) {
    forall k :: k in fm && k in PersonFrontmatterSchema ==> AllowedValue(PersonFrontmatterSchema[k], fm[k])
  }

  /** Unknown properties pass through: adding, changing or removing one
      never decides whether an object conforms. */
  lemma ConformsIgnoresUnknown(fm: Frontmatter, k: string, v: Value)
    requires k !in PersonFrontmatterSchema
    ensures ConformsToSchema(fm[k := v]) <==> ConformsToSchema(fm)
    ensures ConformsToSchema(fm - {k}) <==> ConformsToSchema(fm)
  {
    if ConformsToSchema(fm) {
      forall j | j in fm[k := v] && j in PersonFrontmatterSchema
        ensures AllowedValue(PersonFrontmatterSchema[j], fm[k := v][j])
      {
        assert j != k && fm[k := v][j] == fm[j];
      }
    }
    if ConformsToSchema(fm[k := v]) {
      forall j | j in fm && j in PersonFrontmatterSchema
        ensures AllowedValue(PersonFrontmatterSchema[j], fm[j])
      {
        assert j != k && fm[k := v][j] == fm[j];
      }
    }
  }

  /** `sanitizePersonFrontmatter`: the input itself when it is an object that
      passes the schema, and the empty object otherwise. There is no repair
      of single properties: the result is all or nothing. */
  function SanitizePersonFrontmatter(data: Raw): (r: Frontmatter)
    ensures ConformsToSchema(r)
    ensures r == map[] || (data.Record? && r == data.fields)
  {
    if data.Record? && ConformsToSchema(data.fields) then data.fields else map[]
  }

  /** Anything that is not an object (`null` included) sanitises to `{}`. */
  lemma SanitizeNonObject(data: Raw)
    requires data.NonRecord?
    ensures SanitizePersonFrontmatter(data) == map[]
  {
  }

  /** Valid frontmatter comes back unchanged, unknown properties included. */
  lemma SanitizeKeepsValid(fm: Frontmatter)
    requires ConformsToSchema(fm)
    ensures SanitizePersonFrontmatter(Record(fm)) == fm
  {
  }

  /** One known property of a wrong type empties the whole result. */
  lemma SanitizeRejectsWhole(fm: Frontmatter, k: string)
    requires k in fm && k in PersonFrontmatterSchema
    requires !AllowedValue(PersonFrontmatterSchema[k], fm[k])
    ensures SanitizePersonFrontmatter(Record(fm)) == map[]
  {
  }

  /** Sanitising is idempotent. */
  lemma SanitizeIdempotent(data: Raw)
    ensures SanitizePersonFrontmatter(Record(SanitizePersonFrontmatter(data))) == SanitizePersonFrontmatter(data)
  {
  }

  /** Sanitised frontmatter holds a string (or nothing) under the
      `relationship` and `follow-up-date-notification` properties, and
      `told-about-business` is the only property that accepts a boolean. */
  lemma SanitizedPropertyTypes(data: Raw, k: string)
    requires k in PersonFrontmatterSchema
    ensures TString in PersonFrontmatterSchema[k]
    ensures TBoolean in PersonFrontmatterSchema[k] <==> k == "told-about-business"
    ensures k in {"relationship", "follow-up-date-notification"} && k in SanitizePersonFrontmatter(data)
            ==> SanitizePersonFrontmatter(data)[k].Str?
  {
  }

  /** `RawPersonSource`: what the indexer reports about a person note. */
  datatype PersonSource = PersonSource(filePath: string, mtime: int, frontmatter: Frontmatter, folder: string)

  /** `Person`: one entry of the people cache. */
  datatype Person = Person(filePath: string, name: string, frontmatter: Frontmatter, mtime: int, folder: string)
}
