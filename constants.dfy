/** The plugin's constants: its identifier, the command identifiers and the
    default values the settings schema falls back to. */
module Constants {

  const PluginId := "people-manager"

  /** Number of files the generic indexer may scan at once. */
  const ScanConcurrency := 10

  /** `COMMAND_IDS`: command key to command identifier, without the plugin prefix. */
  const CommandIds: map<string, string> := map[
    "SHOW_STATS" := "show-stats",
    "CHECK_FOLLOWUPS" := "check-followups",
    "RESYNC_PEOPLE" := "resync-people",
    "CREATE_PERSON" := "create-person",
    "SHOW_OVERDUE" := "show-overdue-followups",
    "SHOW_UPCOMING" := "show-upcoming-followups"
  ]

  /** The identifier a command is registered under: the plugin identifier, a
      colon, and the command's own identifier. */
  function PrefixedCommandId(id: string): (full: string)
    ensures |full| == |PluginId| + 1 + |id|
    ensures full[..|PluginId|] == PluginId && full[|PluginId|] == ':'
    ensures full[|PluginId| + 1..] == id
  {
    PluginId + ":" + id
  }

  /** `FULL_COMMAND_IDS`: `COMMAND_IDS` with every identifier prefixed. */
  function FullCommandIds(): (full: map<string, string>)
    ensures full.Keys == CommandIds.Keys
    ensures forall k :: k in full ==> full[k] == PrefixedCommandId(CommandIds[k])
  {
    map k | k in CommandIds :: PrefixedCommandId(CommandIds[k])
  }

  /** Prefixing never merges two commands: distinct identifiers stay
      distinct once prefixed, and the original is recovered by dropping the
      prefix. */
  lemma PrefixedCommandIdInjective(a: string, b: string)
    ensures PrefixedCommandId(a) == PrefixedCommandId(b) <==> a == b
  {
    if PrefixedCommandId(a) == PrefixedCommandId(b) {
      assert a == PrefixedCommandId(a)[|PluginId| + 1..];
    }
  }

  /** Every full command identifier starts with `people-manager:`. */
  lemma FullCommandIdsArePrefixed(k: string)
    requires k in FullCommandIds()
    ensures FullCommandIds()[k][..|PluginId| + 1] == PluginId + ":"
  {
    var full := FullCommandIds()[k];
    assert full[..|PluginId| + 1] == full[..|PluginId|] + [full[|PluginId|]];
  }

  // SETTINGS_DEFAULTS: general settings
  const DefaultDirectory := "People"
  const DefaultEnabled := true
  const DefaultShowRibbonIcon := true
  const DefaultDebugMode := false

  // SETTINGS_DEFAULTS: notification settings
  const DefaultEnableNotifications := true
  const DefaultNotificationCheckIntervalMinutes := 60
  const DefaultNotificationLeadTimeHours := 24
  const DefaultShowNotificationOnStartup := true

  // SETTINGS_DEFAULTS: frontmatter property names
  const DefaultSegmentProp := "segment"
  const DefaultCityProp := "city"
  const DefaultOriginalCityProp := "original-city"
  const DefaultBornOnProp := "born-on"
  const DefaultFirstContactProp := "first-contact"
  const DefaultSecondContactProp := "second-contact"
  const DefaultLastContactProp := "last-contact"
  const DefaultContactChannelProp := "contact-channel"
  const DefaultPositionProp := "position"
  const DefaultStatusProp := "status"
  const DefaultStatusBusinessProp := "status-business"
  const DefaultToldAboutBusinessProp := "told-about-business"
  const DefaultUrgencyProp := "urgency"
  const DefaultLikabilityProp := "likability"
  const DefaultSocialEnergyProp := "social-energy"
  const DefaultReliabilityProp := "reliability"
  const DefaultRelationshipGoalProp := "relationship-goal"
  const DefaultRelationshipProp := "relationship"
  const DefaultAmbitionsProp := "ambitions"
  const DefaultDreamsProp := "dreams"
  const DefaultInterestsProp := "interests"
  const DefaultValuesProp := "values"
  const DefaultPersonalityTypeProp := "personality-type"
  const DefaultNextStepProp := "next-step"
  const DefaultFollowUpDateProp := "follow-up-date-notification"
  const DefaultDatesProp := "dates"
  const DefaultHistoryNoteProp := "history-note"

  // SETTINGS_DEFAULTS: business status values
  const StatusProspect := "Prospect"
  const StatusInfoSession := "Info Session"
  const StatusFollowUp := "Follow-up"
  const StatusClose := "Close"
  const StatusCustomer := "Customer"
  const StatusPartner := "Partner"

  // SETTINGS_DEFAULTS: segment values
  const SegmentColdApproach := "Cold Approach"
  const SegmentWarm := "Warm"
  const SegmentFamily := "Family"
  const SegmentBusiness := "Business"
  const SegmentGym := "Gym"
  const SegmentUniversity := "University"
  const SegmentWork := "Work"
}
