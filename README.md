# PeopleManager core, modelled in Dafny

PeopleManager is an Obsidian plugin that keeps one note per person in a
vault directory. This project models its core logic and proves properties
of that model:

- **The person indexer** (`indexer.dfy`, module `Indexer`).
  - It narrows the generic vault indexer to the people directory, using the
    `includeFile` path filter.
  - It turns generic file events into `person-changed` and `person-deleted`
    events, whose frontmatter has been sanitised.
  - On a settings update it decides between a resync and a config push.
- **The people cache** (`people_manager.dfy`, module `PeopleCache`).
  - A map from person name (the file name without `.md`) to `Person`,
    updated from indexer events: upsert, rename and delete.
  - Every update publishes a snapshot.
  - Queries by segment, by business status and by follow-up window.
- **The relationship reconciler** (`relationship_sync.dfy`, module
  `RelationshipSync`).
  - When a person's `relationship` property changes, the back-link on the
    old target is cleared (only if it leads back) and a back-link is
    written onto the new target.
  - The `syncInProgress` guard set keeps the reconciler from reacting to
    its own writes.
  - The reconciler is modelled twice:
    - as a function on a state made of the vault, the guard and the log of
      `processFrontMatter` calls;
    - as a class whose mutually recursive methods are proved equal to that
      function.
  - In the class, each write delivers the indexer's event for it back to
    the handler inside the write, as the plugin's loop-prevention test
    does.
- **The person frontmatter sanitiser** (`person.dfy`, module `PersonTypes`).
  An all-or-nothing check of the known property types, with unknown
  properties passed through.
- **The settings sanitiser** (`settings.dfy`, module `SettingsSchema`).
  - Stored settings are merged over `DEFAULT_SETTINGS`.
  - They are parsed by a `.strip()` schema whose every field has its own
    `.catch` default.
- **The constants** (`constants.dfy`, module `Constants`): command
  identifiers and `SETTINGS_DEFAULTS`.

Helper modules:

| file | module | models |
|---|---|---|
| `wrappers.dfy` | `Wrappers` | `Option` |
| `js_values.dfy` | `JsValues` | loosely typed JavaScript values and truthiness |
| `text.dfy` | `Text` | `trim`, `startsWith`/`endsWith`, and the first/last piece of `split` |
| `paths.dfy` | `Paths` | `getPersonNameFromPath`, which `people-manager.ts` and `relationship-sync.ts` define identically |

Obsidian's APIs become parameters of the model:

- `getFirstLinkpathDest` is `Store.resolve`.
- `processFrontMatter`'s failure is `Store.fails`.
- `String(v)` of a non-string value is `Store.stringOf`.
- The vault's files are a `VaultFiles` map.
- `new Date(value)` is a partial `parseDate` function to integer milliseconds.
- The clock is a `now` argument.
- The indexer's reaction to a write is the manager's `echo` function.

## Model

| member | source | states |
|---|---|---|
| Text.TrimIdempotent | src/core/relationship-sync.ts:108 | trimming an already trimmed link text changes nothing |
| Text.BeforeFirstOfJoin | src/core/relationship-sync.ts:117 | the first piece of a split at the alias bar is the text before the first bar, or all of a text without one |
| Text.AfterLastOfJoin | src/core/relationship-sync.ts:254-255 | the last `/`-piece of `a + "/" + b` is `b` when `b` has no slash |
| Paths.PersonNameFromPath | src/core/relationship-sync.ts:253-262 | no name exactly when the last `/`-piece is empty; a name never contains `/` |
| Paths.PersonNameOfNote | src/core/people-manager.ts:70-77 | the note `folder/n.md` is named `n`, in any folder |
| Paths.PersonNameOfPlainFile | src/core/people-manager.ts:76 | a file name without `.md` is kept whole |
| Paths.NoNameForFolderPath | src/core/people-manager.ts:71-73 | an empty path or one ending in `/` names nobody |
| Paths.FileNameAfterFolder | src/core/people-manager.ts:71-72 | the last piece of `folder + file` is `file` when the file name has no `/` |
| Constants.PrefixedCommandId | src/constants.ts:17 | the full identifier is `people-manager`, a colon, then the command identifier, each at its own position |
| Constants.FullCommandIds | src/constants.ts:16-20 | `FULL_COMMAND_IDS` has exactly the keys of `COMMAND_IDS`, each mapped to its prefixed identifier |
| Constants.PrefixedCommandIdInjective | src/constants.ts:16-18 | two identifiers have the same full identifier iff they are equal |
| Constants.FullCommandIdsArePrefixed | src/constants.ts:1-20 | every full identifier starts with `people-manager:` |
| PersonTypes.SanitizePersonFrontmatter | src/types/person.ts:91-97 | the result passes the schema and is either `{}` or the input object itself |
| PersonTypes.SanitizeNonObject | src/types/person.ts:91-97 | anything that is not an object, `null` included, gives `{}` |
| PersonTypes.SanitizeKeepsValid | src/types/person.ts:56-94 | an object that passes the schema comes back unchanged, unknown properties included |
| PersonTypes.SanitizeRejectsWhole | src/types/person.ts:92-96 | one known property of a wrong type empties the whole result |
| PersonTypes.SanitizeIdempotent | src/types/person.ts:91-97 | sanitising a sanitised result changes nothing |
| PersonTypes.SanitizedPropertyTypes | src/types/person.ts:58-84 | every known property accepts a string; only `told-about-business` accepts a boolean; sanitised `relationship` and `follow-up-date-notification` are strings |
| PersonTypes.ConformsToSchema | src/types/person.ts:56-86 | definition: every known property that is present holds one of its allowed types (`z.number()` excludes NaN); every known property is optional |
| PersonTypes.ConformsIgnoresUnknown | src/types/person.ts:86 | `.passthrough()`: adding, changing or removing an unknown property never changes whether an object passes |
| SettingsSchema.CatchField | src/types/settings.ts:9-33 | a field keeps an accepted value, and a missing or rejected one becomes its `.catch` default |
| SettingsSchema.ParseStrip | src/types/settings.ts:76-81 | a `.strip()` parse has exactly the schema's keys; it keeps accepted inputs and defaults missing ones; every field whose default passes its checks holds an accepted value |
| SettingsSchema.SanitizeSettings | src/types/settings.ts:98-106 | the result always conforms to the full schema |
| SettingsSchema.ParseEmptyOfExtend | src/types/settings.ts:88-93 | spreading the parses of two sub-schemas from `{}` is parsing their extension from `{}` |
| SettingsSchema.ParseOverDefaults | src/types/settings.ts:99-103 | merging over the schema's own defaults before parsing changes nothing |
| SettingsSchema.ParseIgnoresUnknown | src/types/settings.ts:81 | a property the schema does not name has no effect on the parse |
| SettingsSchema.ParseKeepsAccepted | src/types/settings.ts:103-105 | an input whose every field is accepted parses to itself |
| SettingsSchema.DefaultsAcceptedOfExtend | src/types/settings.ts:76-80 | defaults that pass their checks in each part still pass in the extension |
| SettingsSchema.SchemasDisjoint | src/types/settings.ts:76-81 | no field name occurs in two sub-schemas or clashes with `version`, so `.extend` overrides nothing |
| SettingsSchema.VersionCommutes | src/types/settings.ts:76-93 | putting `version` first, as `DEFAULT_SETTINGS` does, or last, as the schema does, gives the same schema |
| SettingsSchema.DefaultSettingsAreSchemaDefaults | src/types/settings.ts:88-93 | `DEFAULT_SETTINGS` is the full schema parsed from `{}`: every field at its own default |
| SettingsSchema.GeneralDefaultsAccepted | src/constants.ts:24-27 | the general defaults pass their own fields' checks |
| SettingsSchema.NotificationsDefaultsAccepted | src/constants.ts:30-33 | the default interval 60 lies in [1, 1440], the default lead time 24 lies in [0, 168], and the flags are booleans |
| SettingsSchema.PropsDefaultsAccepted | src/constants.ts:36-62 | every default property name is a string |
| SettingsSchema.DefaultsConform | src/types/settings.ts:88-93 | every field's default passes its checks, and `DEFAULT_SETTINGS` conforms to the full schema |
| SettingsSchema.SanitizeParsesFields | src/types/settings.ts:98-105 | sanitising is parsing the stored properties alone, since merging over the defaults is redundant |
| SettingsSchema.SanitizeFieldwise | src/types/settings.ts:9-69 | each result field depends only on that stored property: kept if accepted, otherwise its own default |
| SettingsSchema.SanitizeNonObject | src/types/settings.ts:98-103 | input that is not an object, `null` included, gives `DEFAULT_SETTINGS` |
| SettingsSchema.SanitizeKeepsConforming | src/types/settings.ts:103-105 | settings that already conform come back unchanged |
| SettingsSchema.SanitizeIdempotent | src/types/settings.ts:88-109 | sanitising is idempotent, and `DEFAULT_SETTINGS` is a fixed point |
| SettingsSchema.SanitizeStripsUnknown | src/types/settings.ts:81 | an unknown property is absent from the result and does not change it |
| SettingsSchema.ExtendKeeps | src/types/settings.ts:76-80 | a field the later schema does not name keeps its rule through `.extend` |
| SettingsSchema.NotificationsRule | src/types/settings.ts:76 | each notification field keeps its rule in the full schema |
| SettingsSchema.GeneralRule | src/types/settings.ts:76 | each general field keeps its rule in the full schema |
| SettingsSchema.DirectoryRule | src/types/settings.ts:9 | `directory` is a string field defaulting to "People" |
| SettingsSchema.EnabledRule | src/types/settings.ts:10 | `enabled` is a boolean field defaulting to true |
| SettingsSchema.IntervalRule | src/types/settings.ts:22-27 | the check interval is an integer field in [1, 1440] defaulting to 60 |
| SettingsSchema.LeadTimeRule | src/types/settings.ts:28-33 | the lead time is an integer field in [0, 168] defaulting to 24 |
| SettingsSchema.SanitizedIntervalBounds | src/types/settings.ts:22-27 | after sanitising, the check interval is always an integer in [1, 1440] |
| SettingsSchema.SanitizedLeadTimeBounds | src/types/settings.ts:28-33 | after sanitising, the lead time is always an integer in [0, 168] |
| SettingsSchema.SanitizedVersionBounds | src/types/settings.ts:79 | after sanitising, the version is always a positive integer |
| SettingsSchema.SanitizeNullExample | src/types/settings.ts:98-103 | `sanitizeSettings(null)` has directory "People" and `enabled` true |
| SettingsSchema.DefaultDirectoryAndEnabled | src/types/settings.ts:88-93 | `DEFAULT_SETTINGS` has directory "People" and `enabled` true |
| SettingsSchema.SanitizeKeepsSupplied | src/types/settings.ts:99-105 | a stored property the schema accepts is kept |
| SettingsSchema.SanitizeDefaultsMissing | src/types/settings.ts:99-102 | a property missing from the stored object takes its default |
| SettingsSchema.SanitizeKeepsDirectory | src/types/settings.ts:9 | a partial object keeps the string directory it gives |
| SettingsSchema.SanitizeDefaultsEnabled | src/types/settings.ts:10 | a partial object without `enabled` is enabled |
| SettingsSchema.ConformsHasDirectory | src/types/settings.ts:9 | conforming settings have a string directory |
| Indexer.IncludeNeedsSeparator | src/core/indexer.ts:65-69 | a path that extends the directory name without `/` is excluded: "Peoplex/a.md" is not in "People" |
| Indexer.IncludePath | src/core/indexer.ts:65-69 | definition of `includeFile`: every path when the directory is empty, otherwise the directory itself or a path starting with the directory and `/` |
| Indexer.IncludedPathShape | src/core/indexer.ts:65-69 | with a directory set, a path is included if and only if it is the directory itself or continues the directory with `/` |
| Indexer.IncludeDescendants | src/core/indexer.ts:65-69 | everything below an included path is included |
| Indexer.IncludeNarrows | src/core/indexer.ts:65-69 | a subdirectory's scope lies within its directory's scope |
| Indexer.IncludeExamples | src/core/indexer.ts:65-69 | "People/Alice.md" is included and "Peoplex/a.md" is not; every path is included when the directory is empty |
| Indexer.ScanConcurrencyIsConstant | src/core/indexer.ts:71 | the scan concurrency written into the indexer configuration equals `SCAN_CONCURRENCY` (src/constants.ts:4) |
| Indexer.FolderOf | src/core/indexer.ts:121 | the folder is "" exactly when there is no parent or its path is empty, and otherwise the parent's path |
| Indexer.TranslateGenericEvent | src/core/indexer.ts:99-131 | no event exactly for a change without a source or whose path is not a file; a deletion passes its path and old frontmatter through; a change passes path, old path, old frontmatter and diff through, with sanitised frontmatter, the file's mtime and its folder |
| Indexer.TranslatedEventsWellFormed | src/core/indexer.ts:99-131 | every emitted change carries a source for its own path whose frontmatter passes the person schema; a deletion carries no source, old path or diff |
| Indexer.SettingsChangeCall | src/core/indexer.ts:48-57 | a resync exactly when the directory differs; otherwise a push of the rebuilt config |
| Indexer.PeopleIndexer.constructor | src/core/indexer.ts:35-61 | starts subscribed with the store's settings, having pushed the initial config |
| Indexer.PeopleIndexer.IncludeFile | src/core/indexer.ts:65-69 | the callback filters by the directory of the current settings |
| Indexer.PeopleIndexer.SettingsUpdated | src/core/indexer.ts:48-57 | while subscribed: adopt the new settings and record the resync or the config push; once stopped: nothing changes |
| Indexer.PeopleIndexer.Start | src/core/indexer.ts:76-81 | records a start of the generic indexer and changes nothing else |
| Indexer.PeopleIndexer.Stop | src/core/indexer.ts:83-90 | records a stop and drops the settings subscription |
| Indexer.PeopleIndexer.Resync | src/core/indexer.ts:92-97 | records a resync and changes nothing else |
| Indexer.PeopleIndexer.HandleGenericEvent | src/core/indexer.ts:99-137 | emits exactly the translated event, if there is one; every emitted event stays well formed |
| PeopleCache.FollowUpKeyIsDefaultProp | src/constants.ts:60 | the key the follow-up queries read equals the default follow-up property name |
| PeopleCache.ApplyIndexerEvent | src/core/people-manager.ts:38-68 | every entry stays stored under its own person's name |
| PeopleCache.Update | src/core/people-manager.ts:38-68 | the cache update, once the event's name and old name are known, keeps every entry under its own person's name |
| PeopleCache.UpdateOthers | src/core/people-manager.ts:38-68 | entries under names other than the event's two names are untouched |
| PeopleCache.UpdateDeletes | src/core/people-manager.ts:61-66 | a deletion removes a usable name and leaves an absent or unusable one as it was |
| PeopleCache.ChangeUpserts | src/core/people-manager.ts:39-59 | a change stores the person under its file name, with every field copied from the event |
| PeopleCache.RenameEvicts | src/core/people-manager.ts:52-59 | after a rename, the new name is present and the old one is absent unless the two are equal |
| PeopleCache.OthersUnchanged | src/core/people-manager.ts:38-68 | entries under other names are untouched |
| PeopleCache.DeleteRemoves | src/core/people-manager.ts:61-66 | a deletion removes the name; deleting an absent name leaves the cache unchanged |
| PeopleCache.SilentEventsChangeNothing | src/core/people-manager.ts:38-68 | an event that publishes nothing leaves the cache unchanged |
| PeopleCache.IndexedNoteIsCached | src/core/people-manager.ts:39-59 | a note `folder/n.md` that the indexer reports as changed ends up cached under `n`, with frontmatter that passes the person schema |
| PeopleCache.NamedValuesCount | src/core/people-manager.ts:82-84 | a cache keyed by its people's names has as many people as entries |
| PeopleCache.FollowUpTime | src/core/people-manager.ts:101-109 | a time exists only for a truthy follow-up property, and then it is that value parsed |
| PeopleCache.PeopleManager.constructor | src/core/people-manager.ts:18-36 | starts subscribed, with an empty cache and the empty map published |
| PeopleCache.PeopleManager.HandleIndexerEvent | src/core/people-manager.ts:38-68 | while subscribed, the cache becomes `ApplyIndexerEvent` of the old one, and a copy is published when the event is a sourced change or a deletion of a usable name (even one not in the cache); after `destroy`, nothing changes |
| PeopleCache.PeopleManager.GetAllPeople | src/core/people-manager.ts:82-84 | exactly the cached people |
| PeopleCache.PeopleManager.GetPerson | src/core/people-manager.ts:89-91 | a person exactly when the name is cached, and then the person of that name |
| PeopleCache.PeopleManager.UpcomingFollowUps | src/core/people-manager.ts:96-111 | exactly the cached people whose follow-up time lies in [now, now + hours·3 600 000 ms] |
| PeopleCache.PeopleManager.OverdueFollowUps | src/core/people-manager.ts:116-130 | exactly the cached people whose follow-up time is strictly before now |
| PeopleCache.PeopleManager.PeopleBySegment | src/core/people-manager.ts:135-137 | exactly the cached people whose `segment` is that string |
| PeopleCache.PeopleManager.PeopleByStatus | src/core/people-manager.ts:142-144 | exactly the cached people whose `status-business` is that string |
| PeopleCache.PeopleManager.GetStats | src/core/people-manager.ts:149-155 | the total is the cache size; the counts are the sizes of the 24-hour upcoming list and the overdue list; each is at most the total, and together they are at most the total when read at one instant |
| PeopleCache.PeopleManager.Destroy | src/core/people-manager.ts:160-167 | unsubscribes, clears the cache and completes the stream |
| PeopleCache.CountsBounded | src/core/people-manager.ts:149-155 | each list is no longer than the cache, and for one reading of the clock both together are no longer |
| PeopleCache.UpcomingOverdueDisjoint | src/core/people-manager.ts:96-130 | for one reading of the clock, no person is both upcoming and overdue |
| PeopleCache.UpcomingMonotone | src/core/people-manager.ts:96-111 | a wider window finds everyone a narrower one finds |
| PeopleCache.UpcomingWindowEdges | src/core/people-manager.ts:96-111 | a negative window finds nobody; a zero window finds exactly the cached people whose follow-up is due now, in both directions |
| RelationshipSync.RelationshipKeyIsDefaultProp | src/constants.ts:53 | the key the reconciler uses equals the default relationship property name |
| RelationshipSync.StripBrackets | src/core/relationship-sync.ts:108 | definition of the bracket-stripping `replace`: a leading `[[` and then a trailing `]]` are dropped |
| RelationshipSync.CleanLink | src/core/relationship-sync.ts:108 | definition: the link text trimmed, then stripped of its brackets |
| RelationshipSync.LinkPath | src/core/relationship-sync.ts:117 | definition: the cleaned text up to its first bar, trimmed |
| RelationshipSync.ExtractFileFromWikiLink | src/core/relationship-sync.ts:104-129 | definition of `extractFileFromWikiLink`; its contract is `ExtractFileLooksUpLinkPath` |
| RelationshipSync.ExtractFileLooksUpLinkPath | src/core/relationship-sync.ts:104-129 | a link that is empty once cleaned leads nowhere; otherwise it leads where the store resolves its path part, a key that is trimmed and holds no alias bar |
| RelationshipSync.StripBracketsSlice | src/core/relationship-sync.ts:108 | the cleaned text is the slice after a leading `[[` and before a trailing `]]` |
| RelationshipSync.LinkPathHasNoBar | src/core/relationship-sync.ts:117 | the path part of a link never contains the alias separator |
| RelationshipSync.CleanOfLink | src/core/relationship-sync.ts:108 | `[[body]]` cleans to `body` |
| RelationshipSync.WikiLink | src/core/relationship-sync.ts:162 | the written link is the name enclosed in `[[ ]]` |
| RelationshipSync.BacklinkRoundTrip | src/core/relationship-sync.ts:104-129 | the link written for a plain name leads to the note that name resolves to |
| RelationshipSync.BacklinkLeadsBack | src/core/relationship-sync.ts:221-234 | a relationship holding that link counts as linking to the note |
| RelationshipSync.AliasIgnored | src/core/relationship-sync.ts:116-121 | a link whose name is followed by a bar and an alias leads where the name alone resolves |
| RelationshipSync.EmptyLinksLeadNowhere | src/core/relationship-sync.ts:111-114 | "" and `[[]]` lead to no note |
| RelationshipSync.ApplyEdit | src/core/relationship-sync.ts:160-238 | the addition sets `relationship` to the link; the removal deletes it exactly when it leads to the source, and otherwise changes nothing |
| RelationshipSync.ApplyEditFrame | src/core/relationship-sync.ts:160-238 | neither callback touches any other property |
| RelationshipSync.SetLinkAbsorbs | src/core/relationship-sync.ts:70-90 | an addition after any edit on the same note gives what the addition alone gives |
| RelationshipSync.WritesTo | src/core/relationship-sync.ts:70-90 | at most two writes, none on a guarded note or on the event's own note |
| RelationshipSync.WriteStep | src/core/relationship-sync.ts:160-171 | definition of one `processFrontMatter` call: always logged; the edit is saved unless the call throws or the note is missing |
| RelationshipSync.LinkStep | src/core/relationship-sync.ts:141-182 | definition of the shared shape of the two link methods: skip a guarded target; guard it; write when the source has a name; release it |
| RelationshipSync.AddLinkStep | src/core/relationship-sync.ts:134-183 | definition: the link step with the back-link edit |
| RelationshipSync.RemoveLinkStep | src/core/relationship-sync.ts:188-248 | definition: the link step with the conditional removal edit |
| RelationshipSync.LinkStepByParts | src/core/relationship-sync.ts:141-182 | a link step that goes ahead is its write between guarding and releasing the target |
| RelationshipSync.LinkStepGuard | src/core/relationship-sync.ts:142-180 | each guard addition is undone by its `finally` |
| RelationshipSync.LinkStepKeys | src/core/relationship-sync.ts:160-171 | a link step neither creates nor deletes notes |
| RelationshipSync.LinkStepWrites | src/core/relationship-sync.ts:142-171 | one write on the target exactly when it is unguarded and the source has a name |
| RelationshipSync.LinkStepOthers | src/core/relationship-sync.ts:160-171 | other notes are untouched |
| RelationshipSync.LinkStepTarget | src/core/relationship-sync.ts:142-182 | the target gets the edit unless it is guarded, the source has no name, or the write throws |
| RelationshipSync.SyncGuard | src/core/relationship-sync.ts:66-98 | the guard after a sync is the guard before it |
| RelationshipSync.SyncKeys | src/core/relationship-sync.ts:66-98 | a sync neither creates nor deletes notes |
| RelationshipSync.SyncWrites | src/core/relationship-sync.ts:70-90 | a sync writes exactly `WritesTo`: the old target first, then the new one |
| RelationshipSync.SyncOthers | src/core/relationship-sync.ts:70-90 | notes other than the two targets are untouched |
| RelationshipSync.SyncNewTarget | src/core/relationship-sync.ts:80-90 | the new target ends with the source's back-link |
| RelationshipSync.SyncOldTarget | src/core/relationship-sync.ts:70-78 | an old target that is not also the new one gets the removal edit |
| RelationshipSync.Sync | src/core/relationship-sync.ts:49-98 | definition of the body of `handleIndexerEvent` once the old and new targets are known: skip a guarded note; guard it; remove, then add; release it |
| RelationshipSync.SyncByParts | src/core/relationship-sync.ts:66-98 | a sync that goes ahead is its removal and its addition between guarding and releasing the note |
| RelationshipSync.Reconcile | src/core/relationship-sync.ts:25-99 | definition of `handleIndexerEvent`: a `relationship` change is synced from its old to its new target; any other event is ignored |
| RelationshipSync.ReconcileGuard | src/core/relationship-sync.ts:25-99 | handling an event leaves the guard set as it found it |
| RelationshipSync.ReconcileKeys | src/core/relationship-sync.ts:25-99 | handling an event neither creates nor deletes notes |
| RelationshipSync.ReconcileWrites | src/core/relationship-sync.ts:25-99 | handling an event writes exactly the targets it reaches: at most two, never a guarded note or the event's own note |
| RelationshipSync.UntriggeredNoWrite | src/core/relationship-sync.ts:32-46 | an event that is not a `relationship` change changes nothing |
| RelationshipSync.GuardedNoWrite | src/core/relationship-sync.ts:49-52 | an event for a guarded note changes nothing |
| RelationshipSync.UnrelatedNotesUntouched | src/core/relationship-sync.ts:25-99 | notes other than the old and the new target are untouched |
| RelationshipSync.ChangeWritesOldThenNew | src/core/relationship-sync.ts:70-90 | a change from B to C writes B and then C, once each, whether or not the write on B fails |
| RelationshipSync.AdditionWritesOnce | src/core/relationship-sync.ts:80-90 | a new relationship alone gives exactly one write, on its target |
| RelationshipSync.AdditionSetsBacklink | src/core/relationship-sync.ts:151-170 | the new target's relationship becomes `[[<source name>]]`, so any alias is dropped |
| RelationshipSync.RemovalClearsOnlyBacklinks | src/core/relationship-sync.ts:214-238 | an old target that is not also the new one loses its relationship only if that relationship leads back to the source |
| RelationshipSync.AdditionIsBidirectional | src/core/relationship-sync.ts:134-171 | when the source's name is plain and resolves back to it, the new target links to the source afterwards |
| RelationshipSync.LinkStepVault | src/core/relationship-sync.ts:141-182 | a link step changes the notes exactly as its phase does |
| RelationshipSync.SyncVault | src/core/relationship-sync.ts:66-98 | a sync changes the notes as clearing the old target and then writing the new one does |
| RelationshipSync.ClearPhaseIdempotent | src/core/relationship-sync.ts:214-238 | repeating the removal on its own outcome changes nothing |
| RelationshipSync.PhasesIdempotent | src/core/relationship-sync.ts:70-90 | repeating the removal and the addition on their own outcome changes nothing |
| RelationshipSync.SyncIdempotentVault | src/core/relationship-sync.ts:49-98 | syncing the same change twice leaves the notes as syncing it once |
| RelationshipSync.ReconcileIdempotentVault | src/core/relationship-sync.ts:25-99 | handling the same event twice, from any state, leaves the notes as handling it once |
| RelationshipSync.RelationshipSyncManager.constructor | src/core/relationship-sync.ts:15-23 | starts subscribed, with nothing guarded and nothing written |
| RelationshipSync.RelationshipSyncManager.HandleIndexerEvent | src/core/relationship-sync.ts:25-99 | the new state is exactly `Reconcile` of the old one, counting the echoes of its own writes that are delivered during the call |
| RelationshipSync.RelationshipSyncManager.AddRelationshipLink | src/core/relationship-sync.ts:134-183 | the new state is exactly the addition step |
| RelationshipSync.RelationshipSyncManager.RemoveRelationshipLink | src/core/relationship-sync.ts:188-248 | the new state is exactly the removal step |
| RelationshipSync.RelationshipSyncManager.ProcessFrontMatter | src/core/relationship-sync.ts:160-171 | the call is logged; unless it throws, the edit is saved; the echo changes nothing |
| RelationshipSync.RelationshipSyncManager.Deliver | src/core/relationship-sync.ts:20-22 | an event for a guarded note reaches the handler and changes nothing |
| RelationshipSync.RelationshipSyncManager.Destroy | src/core/relationship-sync.ts:267-271 | unsubscribes and clears the guard |

## Left out

- Logging (`console`), the rxjs subjects and the async scheduling are left out. Events are delivered by direct calls. A subscription is a flag.
- RelationshipSync.RelationshipSyncManager.HandleIndexerEvent: echoes are modelled only when they arrive while the write's target is still guarded. An echo that arrives after the guard is released is an ordinary new event; the model handles it with a separate call, not inside the write.
- RelationshipSync.RelationshipSyncManager: `echo` only ever reports the path that was written. An event about another note raised inside a write is not modelled.
- RelationshipSync.Store: `getFirstLinkpathDest` is fixed for the whole handling of one event. Changes to the metadata cache between the removal and the addition are not modelled.
- RelationshipSync.Store: `String(v)` of a value that is not a string (`stringOf`) is left abstract.
- PeopleCache: `new Date(value)` is an abstract partial function to integer milliseconds. The reachable date range and fractional hour windows are not modelled.
- PeopleCache.PeopleManager.UpcomingFollowUps: the lists are sets of people, not arrays in the cache's insertion order.
- PeopleCache.PeopleManager.GetStats: each query's clock reading is a parameter.
- PeopleCache.PeopleManager: the settings subscription is left out; it only logs the cache size.
- JsValues: numbers follow zod 3. `z.number()` rejects NaN and accepts the infinities. `.int()` is `Number.isInteger`, which is false for NaN and the infinities. `AllowedValue` and the settings rules rely on this.
- Indexer.VaultFiles: the map's keys stand for `file.path`.
- PersonTypes: frontmatter and settings values are flat. Arrays, nested objects and dates share one `Structured` constructor, because the core never looks inside them. A property whose value is `undefined` is modelled as absent.
- SettingsSchema.SanitizeSettings: the fallback at src/types/settings.ts:107-108 is not modelled. Every field has a `.catch`, so the parse cannot fail; `ParseStrip` states this.
- SettingsSchema: the `relationshipProp` and `followUpDateProp` settings are read by nothing in the core. The reconciler and the follow-up queries use the fixed keys that `RelationshipKeyIsDefaultProp` and `FollowUpKeyIsDefaultProp` relate to their defaults.
- Whether the settings store replays its current value to a new subscriber is not modelled. `PeopleIndexer` starts from the current settings.
- Indexer: the generic indexer's scanning, debouncing, concurrency limit and frontmatter diffing are not part of this model. The diff is input.
- The notification manager, the settings store, the settings tab and the plugin entry point (`main.ts`) are not part of this model. They consist of timers, UI and wiring.
