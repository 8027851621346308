/** The people indexer: it narrows the generic vault indexer to the people
    directory and turns its file events into person events whose
    frontmatter has been sanitised. */
module Indexer {
  import opened Wrappers
  import opened JsValues
  import opened Text
  import opened PersonTypes
  import SettingsSchema
  import Constants

  /** One entry of the generic indexer's frontmatter diff. */
  datatype ChangeType = Added | Modified | Deleted
  datatype FrontmatterChange = FrontmatterChange(
    key: string, oldValue: Option<Value>, newValue: Option<Value>, changeType: ChangeType)

  /** `FrontmatterDiff`, as the generic indexer computes it. */
  datatype FrontmatterDiff = FrontmatterDiff(
    hasChanges: bool,
    changes: seq<FrontmatterChange>,
    added: seq<FrontmatterChange>,
    modified: seq<FrontmatterChange>,
    deleted: seq<FrontmatterChange>)

  /** `IndexerEvent`: "person-changed" or "person-deleted". */
  datatype EventType = PersonChanged | PersonDeleted
  datatype IndexerEvent = IndexerEvent(
    eventType: EventType,
    filePath: string,
    oldPath: Option<string>,
    source: Option<PersonSource>,
    oldFrontmatter: Option<Frontmatter>,
    frontmatterDiff: Option<FrontmatterDiff>)

  /** The generic indexer's events: "file-changed" or "file-deleted". Its
      source frontmatter is whatever the note's YAML held. */
  datatype GenericEventType = FileChanged | FileDeleted
  datatype GenericSource = GenericSource(frontmatter: Raw)
  datatype GenericIndexerEvent = GenericIndexerEvent(
    eventType: GenericEventType,
    filePath: string,
    oldPath: Option<string>,
    source: Option<GenericSource>,
    oldFrontmatter: Option<Frontmatter>,
    frontmatterDiff: Option<FrontmatterDiff>)

  /** A note file as the vault reports it: its modification time and the
      path of its parent folder, if it has one. */
  datatype VaultFile = VaultFile(mtime: int, parent: Option<string>)

  /** The vault's files by path; a path that is missing or names a folder is
      not in the map. */
  type VaultFiles = map<string, VaultFile>

  /** The configuration handed to the generic indexer, apart from its
      `includeFile` callback, which `PeopleIndexer.IncludeFile` models. */
  datatype IndexerConfig = IndexerConfig(excludedDiffProps: set<string>, scanConcurrency: nat, debounceMs: nat)

  /** `buildIndexerConfig`: every frontmatter property is diffed, ten files
      are scanned at a time, and changes are debounced by 100 ms. */
  const PeopleIndexerConfig := IndexerConfig({}, 10, 100)

  /** The scan concurrency written into the configuration is the plugin's
      `SCAN_CONCURRENCY`. */
  lemma ScanConcurrencyIsConstant()
    ensures PeopleIndexerConfig.scanConcurrency == Constants.ScanConcurrency
  {
  }

  /** What the people indexer asks of the generic indexer. */
  datatype GenericCall = StartScan | StopScan | ResyncScan | PushConfig(config: IndexerConfig)

  /** The `includeFile` callback: every path when no directory is set,
      otherwise the directory itself and the paths below it. */
  predicate IncludePath(directory: string, filePath: string) {
    directory == "" || filePath == directory || StartsWith(filePath, directory + "/")
  }

  /** A path that extends the directory name without a separator lies
      outside it: "Peoplex/a.md" is not in "People". */
  lemma IncludeNeedsSeparator(directory: string, extra: string, rest: string)
    requires directory != "" && extra != "" && extra[0] != '/'
    ensures !IncludePath(directory, directory + extra + rest)
  {
    var p := directory + extra + rest;
    assert p[|directory|] == extra[0];
  }

  /** With a directory set, the included paths are exactly the directory
      and the paths that continue it with '/'. */
  lemma IncludedPathShape(directory: string, filePath: string)
    requires directory != ""
    ensures IncludePath(directory, filePath) <==>
      (|| filePath == directory
       || (|filePath| > |directory| && filePath[..|directory|] == directory && filePath[|directory|] == '/'))
  {
    var d := directory + "/";
    if IncludePath(directory, filePath) && filePath != directory {
      assert d[..|directory|] == directory;
      assert filePath[..|directory|] == d[..|directory|];
      assert filePath[|directory|] == d[|directory|];
    }
    if |filePath| > |directory| && filePath[..|directory|] == directory && filePath[|directory|] == '/' {
      assert filePath[..|d|] == d;
    }
  }

  /** Everything below an included path is included. */
  lemma IncludeDescendants(directory: string, filePath: string, name: string)
    requires IncludePath(directory, filePath)
    ensures IncludePath(directory, filePath + "/" + name)
  {
    if directory != "" {
      var q := filePath + "/" + name;
      var d := directory + "/";
      if filePath == directory {
        assert q[..|d|] == d;
      } else {
        assert q[..|d|] == filePath[..|d|];
      }
    }
  }

  /** The scope of a subdirectory lies within its directory's scope. */
  lemma IncludeNarrows(directory: string, sub: string, filePath: string)
    requires directory != ""
    requires IncludePath(directory + "/" + sub, filePath)
    ensures IncludePath(directory, filePath)
  {
    var s := directory + "/" + sub;
    var d := directory + "/";
    assert s[..|d|] == d;
    if filePath == s {
    } else {
      assert filePath[..|s + "/"|] == s + "/";
      assert filePath[..|d|] == (s + "/")[..|d|];
    }
  }

  /** The two paths the directory filter is usually explained with. */
  lemma IncludeExamples()
    ensures IncludePath("People", "People/Alice.md")
    ensures !IncludePath("People", "Peoplex/a.md")
    ensures IncludePath("", "Anywhere/a.md")
  {
    assert "People/Alice.md" == "People" + "/" + "Alice.md";
    assert "Peoplex/a.md" == "People" + "x" + "/a.md";
    IncludeNeedsSeparator("People", "x", "/a.md");
  }

  /** `file.parent?.path || ""`: the parent folder's path, or "" when there
      is no parent or its path is empty. */
  function FolderOf(file: VaultFile): (folder: string)
    ensures folder == "" <==> file.parent.None? || file.parent.value == ""
    ensures folder != "" ==> file.parent == Some(folder)
  {
    if file.parent.Some? && file.parent.value != "" then file.parent.value else ""
  }

  /** `handleGenericEvent`: the person event, if any, that one generic
      event gives. A deletion passes through with its old frontmatter only;
      a change needs a source and a path that is a file in the vault, and
      carries the sanitised frontmatter. */
  function TranslateGenericEvent(event: GenericIndexerEvent, files: VaultFiles): (r: Option<IndexerEvent>)
    ensures r.None? <==> event.eventType.FileChanged? && (event.source.None? || event.filePath !in files)
    ensures event.eventType.FileDeleted? ==>
      r == Some(IndexerEvent(PersonDeleted, event.filePath, None, None, event.oldFrontmatter, None))
    ensures r.Some? && event.eventType.FileChanged? ==>
      && r.value.eventType == PersonChanged
      && r.value.filePath == event.filePath
      && r.value.oldPath == event.oldPath
      && r.value.oldFrontmatter == event.oldFrontmatter
      && r.value.frontmatterDiff == event.frontmatterDiff
      && r.value.source.Some?
      && r.value.source.value.filePath == event.filePath
      && r.value.source.value.mtime == files[event.filePath].mtime
      && r.value.source.value.folder == FolderOf(files[event.filePath])
      && r.value.source.value.frontmatter == SanitizePersonFrontmatter(event.source.value.frontmatter)
  {
    if event.eventType.FileDeleted? then
      Some(IndexerEvent(PersonDeleted, event.filePath, None, None, event.oldFrontmatter, None))
    else if event.source.None? || event.filePath !in files then
      None
    else
      var file := files[event.filePath];
      var source := PersonSource(event.filePath, file.mtime,
                                 SanitizePersonFrontmatter(event.source.value.frontmatter), FolderOf(file));
      Some(IndexerEvent(PersonChanged, event.filePath, event.oldPath, Some(source),
                        event.oldFrontmatter, event.frontmatterDiff))
  }

  /** What every event the people indexer emits satisfies: a change carries
      a source for its own path whose frontmatter passes the person schema;
      a deletion carries neither a source, an old path nor a diff. */
  predicate WellFormedEvent(e: IndexerEvent) {
    && (e.eventType == PersonChanged ==>
          e.source.Some? && e.source.value.filePath == e.filePath
          && ConformsToSchema(e.source.value.frontmatter))
    && (e.eventType == PersonDeleted ==>
          e.source.None? && e.oldPath.None? && e.frontmatterDiff.None?)
  }

  /** Every translated event is well formed. */
  lemma TranslatedEventsWellFormed(event: GenericIndexerEvent, files: VaultFiles)
    requires TranslateGenericEvent(event, files).Some?
    ensures WellFormedEvent(TranslateGenericEvent(event, files).value)
  {
  }

  /** The settings-change rule: a new directory forces a resync of the
      generic indexer (whose filter reads the directory afresh); any other
      change pushes a rebuilt config. */
  function SettingsChangeCall(current: map<string, Value>, next: map<string, Value>): (call: GenericCall)
    requires SettingsSchema.HasDirectory(current) && SettingsSchema.HasDirectory(next)
    ensures call == ResyncScan <==> SettingsSchema.Directory(current) != SettingsSchema.Directory(next)
    ensures call != ResyncScan ==> call == PushConfig(PeopleIndexerConfig)
  {
    if SettingsSchema.Directory(current) != SettingsSchema.Directory(next) then ResyncScan
    else PushConfig(PeopleIndexerConfig)
  }

  /** `PeopleIndexer`: the current settings, whether the settings
      subscription is live, the person events emitted so far, and the calls
      made on the generic indexer. */
  class PeopleIndexer {
    var settings: map<string, Value>
    var settingsSubscribed: bool
    var emitted: seq<IndexerEvent>
    var calls: seq<GenericCall>

    ghost predicate Valid()
      reads this
    {
      && SettingsSchema.HasDirectory(settings)
      && forall i :: 0 <= i < |emitted| ==> WellFormedEvent(emitted[i])
    }

    /** The constructor starts from the store's current settings and hands
        the generic indexer the initial config. */
    constructor (initial: map<string, Value>)
      requires SettingsSchema.HasDirectory(initial)
      ensures Valid()
      ensures settings == initial && settingsSubscribed
      ensures emitted == [] && calls == [PushConfig(PeopleIndexerConfig)]
    {
      settings := initial;
      settingsSubscribed := true;
      emitted := [];
      calls := [PushConfig(PeopleIndexerConfig)];
    }

    /** `includeFile`: the callback reads the settings at the time it is
        called, so a new directory takes effect without a new config. */
    function IncludeFile(filePath: string): (included: bool)
      reads this
      requires Valid()
      ensures included <==> IncludePath(SettingsSchema.Directory(settings), filePath)
    {
      IncludePath(SettingsSchema.Directory(settings), filePath)
    }

    /** The settings subscription: adopt the new settings, then resync or
        push a config. Once stopped, updates no longer arrive. */
    method SettingsUpdated(next: map<string, Value>)
      requires Valid() && SettingsSchema.HasDirectory(next)
      modifies this
      ensures Valid()
      ensures old(settingsSubscribed) ==>
        settings == next && calls == old(calls) + [SettingsChangeCall(old(settings), next)]
      ensures !old(settingsSubscribed) ==> settings == old(settings) && calls == old(calls)
      ensures emitted == old(emitted) && settingsSubscribed == old(settingsSubscribed)
    {
      if settingsSubscribed {
        var call := SettingsChangeCall(settings, next);
        settings := next;
        calls := calls + [call];
      }
    }

    /** `start`. */
    method Start()
      requires Valid()
      modifies this
      ensures Valid()
      ensures calls == old(calls) + [StartScan]
      ensures settings == old(settings) && settingsSubscribed == old(settingsSubscribed) && emitted == old(emitted)
    {
      calls := calls + [StartScan];
    }

    /** `stop`: stops the generic indexer and drops the settings
        subscription. */
    method Stop()
      requires Valid()
      modifies this
      ensures Valid()
      ensures calls == old(calls) + [StopScan] && !settingsSubscribed
      ensures settings == old(settings) && emitted == old(emitted)
    {
      calls := calls + [StopScan];
      settingsSubscribed := false;
    }

    /** `resync`. */
    method Resync()
      requires Valid()
      modifies this
      ensures Valid()
      ensures calls == old(calls) + [ResyncScan]
      ensures settings == old(settings) && settingsSubscribed == old(settingsSubscribed) && emitted == old(emitted)
    {
      calls := calls + [ResyncScan];
    }

    /** `handleGenericEvent`: emit the translated event, if there is one. */
    method HandleGenericEvent(event: GenericIndexerEvent, files: VaultFiles)
      requires Valid()
      modifies this
      ensures Valid()
      ensures var t := TranslateGenericEvent(event, files);
        emitted == old(emitted) + (if t.Some? then [t.value] else [])
      ensures settings == old(settings) && settingsSubscribed == old(settingsSubscribed) && calls == old(calls)
    {
      var t := TranslateGenericEvent(event, files);
      if t.Some? {
        TranslatedEventsWellFormed(event, files);
        emitted := emitted + [t.value];
      }
    }
  }
}
