/** The relationship reconciler: when a person's `relationship` property
    changes, the link on the person it used to point at is cleared (if it
    pointed back) and a link back is written onto the person it points at
    now. A set of paths being synced keeps the reconciler from reacting to
    its own writes. */
module RelationshipSync {
  import opened Wrappers
  import opened JsValues
  import opened Text
  import opened Paths
  import opened PersonTypes
  import opened Indexer
  import Constants

  /** The frontmatter property the reconciler reads and writes. */
  const RelationshipKey := "relationship"

  /** The key the reconciler uses is the default of the configurable
      relationship property. */
  lemma RelationshipKeyIsDefaultProp()
    ensures RelationshipKey == Constants.DefaultRelationshipProp
  {
  }

  /** What the reconciler asks of Obsidian and of JavaScript:
      `resolve` is `getFirstLinkpathDest`, giving the path of the note a
      link text names; `fails` says whether `processFrontMatter` throws for
      a path (the note is then left as it was); `stringOf` is `String(v)`
      for a value that is not a string. */
  datatype Store = Store(
    resolve: string -> Option<string>,
    fails: string -> bool,
    stringOf: Value -> string)

  // ---------------------------------------------------------------------
  // Wiki links.
  // ---------------------------------------------------------------------

  /** `replace(/^\[\[|\]\]$/g, "")`: drop a leading "[[" and then a trailing
      "]]" from what is left. */
  function StripBrackets(s: string): string {
    var a := if StartsWith(s, "[[") then s[2..] else s;
    if EndsWith(a, "]]") then a[..|a| - 2] else a
  }

  /** Stripping keeps a slice of the text: what follows a leading "[[", up to
      a trailing "]]" if there is one. */
  lemma StripBracketsSlice(s: string)
    ensures var r := StripBrackets(s);
      var pre := if StartsWith(s, "[[") then 2 else 0;
      && pre + |r| <= |s|
      && r == s[pre..pre + |r|]
      && (pre + |r| == |s| || s[pre + |r|..] == "]]")
  {
  }

  /** The link text with its surrounding whitespace and brackets removed. */
  function CleanLink(linkText: string): string {
    StripBrackets(Trim(linkText))
  }

  /** The part of a cleaned link that names the note: the text before the
      first '|' (an alias follows it), trimmed. */
  function LinkPath(cleaned: string): string {
    Trim(BeforeFirst(cleaned, '|'))
  }

  /** The path part of a link never holds the alias separator. */
  lemma LinkPathHasNoBar(cleaned: string)
    ensures '|' !in LinkPath(cleaned)
  {
    var b := BeforeFirst(cleaned, '|');
    var t := TrimStart(b);
    assert forall i :: 0 <= i < |t| ==> t[i] == b[|b| - |t| + i];
  }

  /** `extractFileFromWikiLink`: no note for a link that is empty once
      cleaned; otherwise the note its path resolves to, if any. */
  function ExtractFileFromWikiLink(store: Store, linkText: string): Option<string> {
    var cleaned := CleanLink(linkText);
    if cleaned == "" then None else store.resolve(LinkPath(cleaned))
  }

  /** What a link leads to: nothing when it is empty once cleaned,
      otherwise what the store resolves for its path part, a key that is
      trimmed and free of any alias. */
  lemma ExtractFileLooksUpLinkPath(store: Store, linkText: string)
    ensures var cleaned := CleanLink(linkText);
      var r := ExtractFileFromWikiLink(store, linkText);
      && (cleaned == "" ==> r.None?)
      && (cleaned != "" ==> r == store.resolve(LinkPath(cleaned)))
      && '|' !in LinkPath(cleaned)
      && Trim(LinkPath(cleaned)) == LinkPath(cleaned)
  {
    var cleaned := CleanLink(linkText);
    LinkPathHasNoBar(cleaned);
    TrimIdempotent(BeforeFirst(cleaned, '|'));
  }

  /** The link the reconciler writes: "[[" + name + "]]". */
  function WikiLink(name: string): (link: string)
    ensures |link| == |name| + 4 && link[2..|link| - 2] == name
  {
    "[[" + name + "]]"
  }

  /** A name fit to appear inside a link unchanged: not empty, no '|', and
      no whitespace at either end. */
  predicate PlainName(name: string) {
    name != "" && '|' !in name && !IsJsWhitespace(name[0]) && !IsJsWhitespace(name[|name| - 1])
  }

  /** The text of a link with an optional alias, "[[" + name + "|" + alias
      + "]]", cleans to the name and alias. */
  lemma CleanOfLink(body: string)
    ensures CleanLink("[[" + body + "]]") == body
  {
    var link := "[[" + body + "]]";
    assert link[0] == '[' && link[|link| - 1] == ']';
    TrimUnpadded(link);
    assert StartsWith(link, "[[");
    var a := link[2..];
    assert a == body + "]]";
    assert EndsWith(a, "]]");
    assert a[..|a| - 2] == body;
  }

  /** The back-link round trip: the link written for a plain name leads to
      the note that name resolves to. */
  lemma BacklinkRoundTrip(store: Store, name: string)
    requires PlainName(name)
    ensures ExtractFileFromWikiLink(store, WikiLink(name)) == store.resolve(name)
  {
    CleanOfLink(name);
    BeforeFirstOfJoin(name, '|', "");
    TrimUnpadded(name);
  }

  /** A frontmatter whose relationship is the link to a plain name links to
      the note that name resolves to. */
  lemma BacklinkLeadsBack(store: Store, fm: Frontmatter, name: string, source: string)
    requires RelationshipKey in fm && fm[RelationshipKey] == Str(WikiLink(name))
    requires PlainName(name) && store.resolve(name) == Some(source)
    ensures LinksTo(store, fm, source)
  {
    BacklinkRoundTrip(store, name);
  }

  /** An alias does not change the note a link leads to. */
  lemma AliasIgnored(store: Store, name: string, alias: string)
    requires PlainName(name)
    ensures ExtractFileFromWikiLink(store, "[[" + name + "|" + alias + "]]") == store.resolve(name)
  {
    var body := name + "|" + alias;
    assert "[[" + name + "|" + alias + "]]" == "[[" + body + "]]";
    CleanOfLink(body);
    assert body == name + ['|'] + alias;
    BeforeFirstOfJoin(name, '|', alias);
    TrimUnpadded(name);
  }

  /** A link that is empty once cleaned leads nowhere, whatever resolves. */
  lemma EmptyLinksLeadNowhere(store: Store)
    ensures ExtractFileFromWikiLink(store, "") == None
    ensures ExtractFileFromWikiLink(store, "[[]]") == None
  {
    CleanOfLink("");
    assert "[[" + "" + "]]" == "[[]]";
  }

  // ---------------------------------------------------------------------
  // The edits made inside `processFrontMatter`.
  // ---------------------------------------------------------------------

  /** `String(v)`. */
  function JsString(store: Store, v: Value): string {
    if v.Str? then v.s else store.stringOf(v)
  }

  /** The two callbacks: set the relationship to a link, or delete it when
      it links to a given note. */
  datatype Edit = SetLink(link: string) | ClearIfLinksTo(source: string)

  /** Whether a frontmatter's relationship is truthy and leads to `source`. */
  predicate LinksTo(store: Store, fm: Frontmatter, source: string) {
    && RelationshipKey in fm
    && Truthy(fm[RelationshipKey])
    && ExtractFileFromWikiLink(store, JsString(store, fm[RelationshipKey])) == Some(source)
  }

  /** What a callback does to the frontmatter it is handed. */
  function ApplyEdit(store: Store, fm: Frontmatter, edit: Edit): (r: Frontmatter)
    ensures edit.SetLink? ==> RelationshipKey in r && r[RelationshipKey] == Str(edit.link)
    ensures edit.ClearIfLinksTo? && LinksTo(store, fm, edit.source) ==> RelationshipKey !in r
    ensures edit.ClearIfLinksTo? && !LinksTo(store, fm, edit.source) ==> r == fm
  {
    match edit
    case SetLink(link) => fm[RelationshipKey := Str(link)]
    case ClearIfLinksTo(source) => if LinksTo(store, fm, source) then fm - {RelationshipKey} else fm
  }

  /** A callback touches no property but the relationship. */
  lemma ApplyEditFrame(store: Store, fm: Frontmatter, edit: Edit, k: string)
    requires k != RelationshipKey
    ensures k in ApplyEdit(store, fm, edit) <==> k in fm
    ensures k in fm ==> ApplyEdit(store, fm, edit)[k] == fm[k]
  {
  }

  /** Setting the link twice is setting it once; clearing a link and then
      setting it is setting it. */
  lemma SetLinkAbsorbs(store: Store, fm: Frontmatter, link: string, edit: Edit)
    ensures ApplyEdit(store, ApplyEdit(store, fm, edit), SetLink(link)) == ApplyEdit(store, fm, SetLink(link))
  {
  }

  // ---------------------------------------------------------------------
  // The reconciler as a function of its state.
  // ---------------------------------------------------------------------

  /** The vault's note frontmatter by path, the paths being synced, and the
      paths `processFrontMatter` was called on, in order. */
  datatype SyncState = SyncState(vault: map<string, Frontmatter>, guard: set<string>, writes: seq<string>)

  /** `processFrontMatter(target, callback)`: always a call on the target;
      a change to it unless the call fails or there is no such note. */
  function WriteStep(store: Store, st: SyncState, target: string, edit: Edit): SyncState {
    var logged := st.(writes := st.writes + [target]);
    if store.fails(target) || target !in st.vault then logged
    else logged.(vault := st.vault[target := ApplyEdit(store, st.vault[target], edit)])
  }

  /** The shared shape of `addRelationshipLink` and
      `removeRelationshipLink`: skip a target already being synced; guard
      it; write the edit when the source has a name; release it. */
  function LinkStep(store: Store, st: SyncState, target: string, sourcePath: string, edit: Edit): SyncState {
    if target in st.guard then st
    else
      var guarded := st.(guard := st.guard + {target});
      var written :=
        if IsUsableName(PersonNameFromPath(sourcePath)) then WriteStep(store, guarded, target, edit) else guarded;
      written.(guard := written.guard - {target})
  }

  /** The callback of `addRelationshipLink`: the link to the source's name. */
  function BacklinkEdit(sourcePath: string): Edit {
    var name := PersonNameFromPath(sourcePath);
    SetLink(WikiLink(if name.Some? then name.value else ""))
  }

  /** A link step that goes ahead is its write between guarding and
      releasing the target. */
  lemma LinkStepByParts(store: Store, st: SyncState, target: string, sourcePath: string, edit: Edit, written: SyncState)
    requires target !in st.guard
    requires var guarded := st.(guard := st.guard + {target});
      written == if IsUsableName(PersonNameFromPath(sourcePath)) then WriteStep(store, guarded, target, edit) else guarded
    ensures LinkStep(store, st, target, sourcePath, edit) == written.(guard := written.guard - {target})
  {
  }

  /** `addRelationshipLink(target, source)`. */
  function AddLinkStep(store: Store, st: SyncState, target: string, sourcePath: string): SyncState {
    LinkStep(store, st, target, sourcePath, BacklinkEdit(sourcePath))
  }

  /** `removeRelationshipLink(target, source)`. */
  function RemoveLinkStep(store: Store, st: SyncState, target: string, sourcePath: string): SyncState {
    LinkStep(store, st, target, sourcePath, ClearIfLinksTo(sourcePath))
  }

  /** Whether an event concerns the reconciler: a person change whose diff
      lists a change of `relationship`. */
  predicate Triggers(event: IndexerEvent) {
    && event.eventType == PersonChanged
    && event.frontmatterDiff.Some?
    && exists c :: c in event.frontmatterDiff.value.changes && c.key == RelationshipKey
  }

  /** The relationship in an optional frontmatter. */
  function RelationshipOf(fm: Option<Frontmatter>): Option<Value> {
    if fm.Some? && RelationshipKey in fm.value then Some(fm.value[RelationshipKey]) else None
  }

  /** The note a relationship value leads to, when it is a non-empty string
      (`value && typeof value === "string"`). */
  function TargetOf(store: Store, rel: Option<Value>): Option<string> {
    if rel.Some? && rel.value.Str? && rel.value.s != "" then ExtractFileFromWikiLink(store, rel.value.s) else None
  }

  /** The old and the new target of a change event. */
  function OldTarget(store: Store, event: IndexerEvent): Option<string> {
    TargetOf(store, RelationshipOf(event.oldFrontmatter))
  }

  function NewTarget(store: Store, event: IndexerEvent): Option<string> {
    TargetOf(store, RelationshipOf(if event.source.Some? then Some(event.source.value.frontmatter) else None))
  }

  /** The body of `handleIndexerEvent` once the old and the new target are
      known: guard the note, clear the old target's back-link, write the new
      target's back-link, and release the note. */
  function Sync(store: Store, st: SyncState, sourcePath: string, o: Option<string>, n: Option<string>): SyncState {
    if sourcePath in st.guard then st
    else
      var guarded := st.(guard := st.guard + {sourcePath});
      var removed := if o.Some? then RemoveLinkStep(store, guarded, o.value, sourcePath) else guarded;
      var done := if n.Some? then AddLinkStep(store, removed, n.value, sourcePath) else removed;
      done.(guard := done.guard - {sourcePath})
  }

  /** A sync that goes ahead is its two phases between guarding and
      releasing the note. */
  lemma SyncByParts(store: Store, st: SyncState, src: string, o: Option<string>, n: Option<string>, removed: SyncState, done: SyncState)
    requires src !in st.guard
    requires var guarded := st.(guard := st.guard + {src});
      removed == if o.Some? then RemoveLinkStep(store, guarded, o.value, src) else guarded
    requires done == if n.Some? then AddLinkStep(store, removed, n.value, src) else removed
    ensures Sync(store, st, src, o, n) == done.(guard := done.guard - {src})
  {
  }

  /** `handleIndexerEvent`: a triggering event is synced from its old to its
      new target; every other event is ignored. */
  function Reconcile(store: Store, st: SyncState, event: IndexerEvent): SyncState {
    if !Triggers(event) then st
    else Sync(store, st, event.filePath, OldTarget(store, event), NewTarget(store, event))
  }

  // ---------------------------------------------------------------------
  // Properties of the reconciler.
  // ---------------------------------------------------------------------

  /** The write a phase makes: on its target, when there is one, it is not
      being synced or the event's own note, and the source has a name. */
  function PhaseWrite(st: SyncState, sourcePath: string, target: Option<string>): seq<string> {
    if target.Some? && target.value !in st.guard && target.value != sourcePath
       && IsUsableName(PersonNameFromPath(sourcePath))
    then [target.value] else []
  }

  /** The calls to `processFrontMatter` handling a relationship change of
      `sourcePath` from `o` to `n` causes, in order. */
  function WritesTo(st: SyncState, sourcePath: string, o: Option<string>, n: Option<string>): (w: seq<string>)
    ensures |w| <= 2
    ensures forall i :: 0 <= i < |w| ==> w[i] !in st.guard && w[i] != sourcePath
  {
    if sourcePath in st.guard then [] else PhaseWrite(st, sourcePath, o) + PhaseWrite(st, sourcePath, n)
  }

  lemma LinkStepGuard(store: Store, st: SyncState, target: string, sourcePath: string, edit: Edit)
    ensures LinkStep(store, st, target, sourcePath, edit).guard == st.guard
  {
  }

  lemma LinkStepKeys(store: Store, st: SyncState, target: string, sourcePath: string, edit: Edit)
    ensures LinkStep(store, st, target, sourcePath, edit).vault.Keys == st.vault.Keys
  {
  }

  lemma LinkStepWrites(store: Store, st: SyncState, target: string, sourcePath: string, edit: Edit)
    ensures LinkStep(store, st, target, sourcePath, edit).writes
         == st.writes + (if target !in st.guard && IsUsableName(PersonNameFromPath(sourcePath)) then [target] else [])
  {
  }

  lemma LinkStepOthers(store: Store, st: SyncState, target: string, sourcePath: string, edit: Edit, p: string)
    requires p in st.vault && p != target
    ensures var r := LinkStep(store, st, target, sourcePath, edit);
      p in r.vault && r.vault[p] == st.vault[p]
  {
  }

  /** What a link step does to its own target. */
  lemma LinkStepTarget(store: Store, st: SyncState, target: string, sourcePath: string, edit: Edit)
    requires target in st.vault
    ensures var r := LinkStep(store, st, target, sourcePath, edit);
      target in r.vault &&
      r.vault[target] ==
        if target !in st.guard && IsUsableName(PersonNameFromPath(sourcePath)) && !store.fails(target)
        then ApplyEdit(store, st.vault[target], edit)
        else st.vault[target]
  {
  }

  /** Syncing leaves the guard as it found it. */
  lemma SyncGuard(store: Store, st: SyncState, src: string, o: Option<string>, n: Option<string>)
    ensures Sync(store, st, src, o, n).guard == st.guard
  {
    if src !in st.guard {
      var guarded := st.(guard := st.guard + {src});
      var removed := if o.Some? then RemoveLinkStep(store, guarded, o.value, src) else guarded;
      if o.Some? { LinkStepGuard(store, guarded, o.value, src, ClearIfLinksTo(src)); }
      if n.Some? { LinkStepGuard(store, removed, n.value, src, BacklinkEdit(src)); }
    }
  }

  /** Syncing neither adds nor removes notes. */
  lemma SyncKeys(store: Store, st: SyncState, src: string, o: Option<string>, n: Option<string>)
    ensures Sync(store, st, src, o, n).vault.Keys == st.vault.Keys
  {
    if src !in st.guard {
      var guarded := st.(guard := st.guard + {src});
      var removed := if o.Some? then RemoveLinkStep(store, guarded, o.value, src) else guarded;
      if o.Some? { LinkStepKeys(store, guarded, o.value, src, ClearIfLinksTo(src)); }
      if n.Some? { LinkStepKeys(store, removed, n.value, src, BacklinkEdit(src)); }
    }
  }

  /** Syncing calls `processFrontMatter` exactly on the targets it reaches,
      the old one first. */
  lemma SyncWrites(store: Store, st: SyncState, src: string, o: Option<string>, n: Option<string>)
    ensures Sync(store, st, src, o, n).writes == st.writes + WritesTo(st, src, o, n)
  {
    if src !in st.guard {
      var guarded := st.(guard := st.guard + {src});
      var removed := if o.Some? then RemoveLinkStep(store, guarded, o.value, src) else guarded;
      if o.Some? {
        LinkStepGuard(store, guarded, o.value, src, ClearIfLinksTo(src));
        LinkStepWrites(store, guarded, o.value, src, ClearIfLinksTo(src));
      }
      assert removed.guard == guarded.guard;
      assert removed.writes == st.writes + PhaseWrite(st, src, o);
      if n.Some? { LinkStepWrites(store, removed, n.value, src, BacklinkEdit(src)); }
    }
  }

  /** Syncing leaves every note but the two targets as it was. */
  lemma SyncOthers(store: Store, st: SyncState, src: string, o: Option<string>, n: Option<string>, p: string)
    requires p in st.vault && o != Some(p) && n != Some(p)
    ensures var r := Sync(store, st, src, o, n);
      p in r.vault && r.vault[p] == st.vault[p]
  {
    if src !in st.guard {
      var guarded := st.(guard := st.guard + {src});
      var removed := if o.Some? then RemoveLinkStep(store, guarded, o.value, src) else guarded;
      if o.Some? { LinkStepOthers(store, guarded, o.value, src, ClearIfLinksTo(src), p); }
      if n.Some? { LinkStepOthers(store, removed, n.value, src, BacklinkEdit(src), p); }
    }
  }

  /** What syncing does to the new target. */
  lemma SyncNewTarget(store: Store, st: SyncState, src: string, o: Option<string>, c: string)
    requires src !in st.guard && c !in st.guard && c != src && c in st.vault
    requires IsUsableName(PersonNameFromPath(src)) && !store.fails(c)
    ensures var r := Sync(store, st, src, o, Some(c));
      && c in r.vault
      && RelationshipKey in r.vault[c]
      && r.vault[c][RelationshipKey] == Str(WikiLink(PersonNameFromPath(src).value))
  {
    var guarded := st.(guard := st.guard + {src});
    var removed := if o.Some? then RemoveLinkStep(store, guarded, o.value, src) else guarded;
    if o.Some? {
      LinkStepGuard(store, guarded, o.value, src, ClearIfLinksTo(src));
      LinkStepKeys(store, guarded, o.value, src, ClearIfLinksTo(src));
    }
    assert removed.guard == guarded.guard && c in removed.vault;
    LinkStepTarget(store, removed, c, src, BacklinkEdit(src));
  }

  /** What syncing does to an old target that is not also the new one. */
  lemma SyncOldTarget(store: Store, st: SyncState, src: string, b: string, n: Option<string>)
    requires src !in st.guard && b !in st.guard && b != src && b in st.vault && n != Some(b)
    requires IsUsableName(PersonNameFromPath(src)) && !store.fails(b)
    ensures var r := Sync(store, st, src, Some(b), n);
      b in r.vault && r.vault[b] == ApplyEdit(store, st.vault[b], ClearIfLinksTo(src))
  {
    var guarded := st.(guard := st.guard + {src});
    var removed := RemoveLinkStep(store, guarded, b, src);
    LinkStepTarget(store, guarded, b, src, ClearIfLinksTo(src));
    if n.Some? { LinkStepOthers(store, removed, n.value, src, BacklinkEdit(src), b); }
  }

  /** The calls to `processFrontMatter` an event causes, in order. */
  function NewWrites(store: Store, st: SyncState, event: IndexerEvent): seq<string> {
    if !Triggers(event) then [] else WritesTo(st, event.filePath, OldTarget(store, event), NewTarget(store, event))
  }

  /** Handling an event leaves the guard as it found it. */
  lemma ReconcileGuard(store: Store, st: SyncState, event: IndexerEvent)
    ensures Reconcile(store, st, event).guard == st.guard
  {
    if Triggers(event) { SyncGuard(store, st, event.filePath, OldTarget(store, event), NewTarget(store, event)); }
  }

  /** Handling an event neither adds nor removes notes. */
  lemma ReconcileKeys(store: Store, st: SyncState, event: IndexerEvent)
    ensures Reconcile(store, st, event).vault.Keys == st.vault.Keys
  {
    if Triggers(event) { SyncKeys(store, st, event.filePath, OldTarget(store, event), NewTarget(store, event)); }
  }

  /** Handling an event calls `processFrontMatter` exactly on the targets
      it reaches: at most two, none of them being synced or the event's own
      note, the old target first. */
  lemma ReconcileWrites(store: Store, st: SyncState, event: IndexerEvent)
    ensures Reconcile(store, st, event).writes == st.writes + NewWrites(store, st, event)
    ensures |NewWrites(store, st, event)| <= 2
    ensures forall w :: w in NewWrites(store, st, event) ==> w !in st.guard && w != event.filePath
  {
    if Triggers(event) { SyncWrites(store, st, event.filePath, OldTarget(store, event), NewTarget(store, event)); }
  }

  /** An event that is not a relationship change writes nothing. */
  lemma UntriggeredNoWrite(store: Store, st: SyncState, event: IndexerEvent)
    requires !Triggers(event)
    ensures Reconcile(store, st, event) == st
  {
  }

  /** An event for a note that is being synced (the echo of the
      reconciler's own write) writes nothing. */
  lemma GuardedNoWrite(store: Store, st: SyncState, event: IndexerEvent)
    requires event.filePath in st.guard
    ensures Reconcile(store, st, event) == st
  {
  }

  /** Notes other than the old and the new target are left as they were. */
  lemma UnrelatedNotesUntouched(store: Store, st: SyncState, event: IndexerEvent, p: string)
    requires p in st.vault
    requires OldTarget(store, event) != Some(p) && NewTarget(store, event) != Some(p)
    ensures var r := Reconcile(store, st, event);
      p in r.vault && r.vault[p] == st.vault[p]
  {
    if Triggers(event) { SyncOthers(store, st, event.filePath, OldTarget(store, event), NewTarget(store, event), p); }
  }

  /** The conditions under which handling an event reaches its targets: it
      is a relationship change of a note that is not being synced and whose
      file name gives a person name. */
  predicate Reaches(st: SyncState, event: IndexerEvent) {
    Triggers(event) && event.filePath !in st.guard && IsUsableName(PersonNameFromPath(event.filePath))
  }

  /** A target that can be written: not being synced and not the event's
      own note. */
  predicate Writable(st: SyncState, event: IndexerEvent, target: string) {
    target !in st.guard && target != event.filePath
  }

  /** A change from B to C writes B and then C, exactly once each, whether
      or not the write on B fails. */
  lemma ChangeWritesOldThenNew(store: Store, st: SyncState, event: IndexerEvent)
    requires Reaches(st, event)
    requires OldTarget(store, event).Some? && NewTarget(store, event).Some?
    requires Writable(st, event, OldTarget(store, event).value)
    requires Writable(st, event, NewTarget(store, event).value)
    ensures Reconcile(store, st, event).writes
         == st.writes + [OldTarget(store, event).value, NewTarget(store, event).value]
  {
    var o, n := OldTarget(store, event), NewTarget(store, event);
    assert Reconcile(store, st, event) == Sync(store, st, event.filePath, o, n);
    SyncWritesBoth(store, st, event.filePath, o.value, n.value);
  }

  lemma SyncWritesBoth(store: Store, st: SyncState, src: string, b: string, c: string)
    requires src !in st.guard && IsUsableName(PersonNameFromPath(src))
    requires b !in st.guard && b != src && c !in st.guard && c != src
    ensures Sync(store, st, src, Some(b), Some(c)).writes == st.writes + [b, c]
  {
    SyncWrites(store, st, src, Some(b), Some(c));
    assert WritesTo(st, src, Some(b), Some(c)) == [b] + [c] == [b, c];
  }

  /** A new relationship alone gives exactly one write, on its target. */
  lemma AdditionWritesOnce(store: Store, st: SyncState, event: IndexerEvent)
    requires Reaches(st, event)
    requires OldTarget(store, event).None? && NewTarget(store, event).Some?
    requires Writable(st, event, NewTarget(store, event).value)
    ensures Reconcile(store, st, event).writes == st.writes + [NewTarget(store, event).value]
  {
    var n := NewTarget(store, event);
    assert Reconcile(store, st, event) == Sync(store, st, event.filePath, None, n);
    SyncWritesNew(store, st, event.filePath, n.value);
  }

  lemma SyncWritesNew(store: Store, st: SyncState, src: string, c: string)
    requires src !in st.guard && IsUsableName(PersonNameFromPath(src))
    requires c !in st.guard && c != src
    ensures Sync(store, st, src, None, Some(c)).writes == st.writes + [c]
  {
    SyncWrites(store, st, src, None, Some(c));
    assert PhaseWrite(st, src, None) == [];
    assert PhaseWrite(st, src, Some(c)) == [c];
  }

  /** The addition: the new target's relationship becomes the link to the
      source's name (any alias in the source's own link is not carried
      over), unless the write fails. */
  lemma AdditionSetsBacklink(store: Store, st: SyncState, event: IndexerEvent)
    requires Reaches(st, event)
    requires NewTarget(store, event).Some?
    requires Writable(st, event, NewTarget(store, event).value)
    requires NewTarget(store, event).value in st.vault && !store.fails(NewTarget(store, event).value)
    ensures var c := NewTarget(store, event).value;
      var r := Reconcile(store, st, event);
      && c in r.vault
      && RelationshipKey in r.vault[c]
      && r.vault[c][RelationshipKey] == Str(WikiLink(PersonNameFromPath(event.filePath).value))
  {
    SyncNewTarget(store, st, event.filePath, OldTarget(store, event), NewTarget(store, event).value);
  }

  /** The removal: when the old target is not also the new one, its
      relationship is deleted if it leads back to the source, and left
      alone otherwise. */
  lemma RemovalClearsOnlyBacklinks(store: Store, st: SyncState, event: IndexerEvent)
    requires Reaches(st, event)
    requires OldTarget(store, event).Some? && NewTarget(store, event) != OldTarget(store, event)
    requires Writable(st, event, OldTarget(store, event).value)
    requires OldTarget(store, event).value in st.vault && !store.fails(OldTarget(store, event).value)
    ensures var b := OldTarget(store, event).value;
      var r := Reconcile(store, st, event);
      b in r.vault && r.vault[b] == ApplyEdit(store, st.vault[b], ClearIfLinksTo(event.filePath))
  {
    SyncOldTarget(store, st, event.filePath, OldTarget(store, event).value, NewTarget(store, event));
  }

  /** After an addition whose source name is plain and resolves back to the
      source, the relationship is two-way: the target's new link leads to
      the source. */
  lemma AdditionIsBidirectional(store: Store, st: SyncState, event: IndexerEvent)
    requires Reaches(st, event)
    requires NewTarget(store, event).Some?
    requires Writable(st, event, NewTarget(store, event).value)
    requires NewTarget(store, event).value in st.vault && !store.fails(NewTarget(store, event).value)
    requires PlainName(PersonNameFromPath(event.filePath).value)
    requires store.resolve(PersonNameFromPath(event.filePath).value) == Some(event.filePath)
    ensures var c := NewTarget(store, event).value;
      var r := Reconcile(store, st, event);
      c in r.vault && LinksTo(store, r.vault[c], event.filePath)
  {
    var c := NewTarget(store, event).value;
    AdditionSetsBacklink(store, st, event);
    BacklinkLeadsBack(store, Reconcile(store, st, event).vault[c], PersonNameFromPath(event.filePath).value, event.filePath);
  }

  // ---------------------------------------------------------------------
  // Handling an event twice.
  // ---------------------------------------------------------------------

  /** Whether a phase changes its target: there is one, it is not being
      synced, the source has a usable name (`named`), the call does not
      fail and the note exists. */
  predicate PhaseActive(store: Store, v: map<string, Frontmatter>, g: set<string>, named: bool, t: Option<string>) {
    t.Some? && t.value !in g && named && !store.fails(t.value) && t.value in v
  }

  /** What one phase of a sync does to the notes. */
  function Phase(store: Store, v: map<string, Frontmatter>, g: set<string>, named: bool, t: Option<string>, e: Edit): (r: map<string, Frontmatter>)
    ensures r.Keys == v.Keys
  {
    if PhaseActive(store, v, g, named, t) then v[t.value := ApplyEdit(store, v[t.value], e)] else v
  }

  /** A link step changes each note as its phase does. */
  lemma LinkStepVaultAt(store: Store, st: SyncState, target: string, src: string, e: Edit, p: string)
    requires p in st.vault
    ensures var r := LinkStep(store, st, target, src, e).vault;
      var ph := Phase(store, st.vault, st.guard, IsUsableName(PersonNameFromPath(src)), Some(target), e);
      p in r && p in ph && r[p] == ph[p]
  {
    if p == target {
      LinkStepTarget(store, st, target, src, e);
    } else {
      LinkStepOthers(store, st, target, src, e, p);
    }
  }

  /** A link step changes the notes as its phase does. */
  lemma LinkStepVault(store: Store, st: SyncState, target: string, src: string, e: Edit)
    ensures LinkStep(store, st, target, src, e).vault
         == Phase(store, st.vault, st.guard, IsUsableName(PersonNameFromPath(src)), Some(target), e)
  {
    var r := LinkStep(store, st, target, src, e).vault;
    var ph := Phase(store, st.vault, st.guard, IsUsableName(PersonNameFromPath(src)), Some(target), e);
    LinkStepKeys(store, st, target, src, e);
    forall p | p in r
      ensures p in ph && r[p] == ph[p]
    {
      LinkStepVaultAt(store, st, target, src, e, p);
    }
    SameNotes(r, ph);
  }

  /** Two vaults with the same notes, each with the same frontmatter, are
      the same vault. */
  lemma SameNotes(r: map<string, Frontmatter>, ph: map<string, Frontmatter>)
    requires r.Keys == ph.Keys
    requires forall p :: p in r ==> r[p] == ph[p]
    ensures r == ph
  {
  }

  /** Syncing changes the notes as its two phases do: first the old
      target's back-link is cleared, then the new target's is written. */
  lemma SyncVault(store: Store, st: SyncState, src: string, o: Option<string>, n: Option<string>)
    requires src !in st.guard
    ensures var g, named := st.guard + {src}, IsUsableName(PersonNameFromPath(src));
      Sync(store, st, src, o, n).vault
        == Phase(store, Phase(store, st.vault, g, named, o, ClearIfLinksTo(src)), g, named, n, BacklinkEdit(src))
  {
    var guarded := st.(guard := st.guard + {src});
    var removed := if o.Some? then RemoveLinkStep(store, guarded, o.value, src) else guarded;
    if o.Some? {
      LinkStepGuard(store, guarded, o.value, src, ClearIfLinksTo(src));
      LinkStepVault(store, guarded, o.value, src, ClearIfLinksTo(src));
    }
    assert removed.guard == guarded.guard;
    if n.Some? {
      LinkStepVault(store, removed, n.value, src, BacklinkEdit(src));
    }
  }

  /** Clearing a back-link twice is clearing it once. */
  lemma ClearIdempotent(store: Store, fm: Frontmatter, source: string)
    ensures ApplyEdit(store, ApplyEdit(store, fm, ClearIfLinksTo(source)), ClearIfLinksTo(source))
         == ApplyEdit(store, fm, ClearIfLinksTo(source))
  {
  }

  /** A clearing phase repeated on its own outcome changes nothing. */
  lemma ClearPhaseIdempotent(store: Store, v: map<string, Frontmatter>, g: set<string>, named: bool, o: Option<string>, source: string)
    ensures var x := Phase(store, v, g, named, o, ClearIfLinksTo(source));
      Phase(store, x, g, named, o, ClearIfLinksTo(source)) == x
  {
    var x := Phase(store, v, g, named, o, ClearIfLinksTo(source));
    if PhaseActive(store, v, g, named, o) {
      ClearIdempotent(store, v[o.value], source);
      assert x[o.value] == ApplyEdit(store, v[o.value], ClearIfLinksTo(source));
      assert x[o.value := ApplyEdit(store, x[o.value], ClearIfLinksTo(source))] == x;
    }
  }

  /** Clearing again after the new target is written changes only the new
      target, and only when it is also the old one. */
  lemma ClearAfterPut(store: Store, x: map<string, Frontmatter>, g: set<string>, named: bool, o: Option<string>, n: Option<string>, link: string, source: string)
    requires Phase(store, x, g, named, o, ClearIfLinksTo(source)) == x
    ensures var y := Phase(store, x, g, named, n, SetLink(link));
      var z := Phase(store, y, g, named, o, ClearIfLinksTo(source));
      z == y || (o == n && PhaseActive(store, x, g, named, n) && z == y[n.value := ApplyEdit(store, y[n.value], ClearIfLinksTo(source))])
  {
    var y := Phase(store, x, g, named, n, SetLink(link));
    if PhaseActive(store, y, g, named, o) && o != n {
      assert PhaseActive(store, x, g, named, o);
      assert y[o.value] == x[o.value];
      assert ApplyEdit(store, x[o.value], ClearIfLinksTo(source)) == x[o.value];
    }
  }

  /** Writing the new target after that restores what the first write
      left. */
  lemma PutAfterClear(store: Store, x: map<string, Frontmatter>, z: map<string, Frontmatter>, g: set<string>, named: bool, n: Option<string>, link: string, source: string)
    requires var y := Phase(store, x, g, named, n, SetLink(link));
      z == y || (PhaseActive(store, x, g, named, n) && z == y[n.value := ApplyEdit(store, y[n.value], ClearIfLinksTo(source))])
    ensures Phase(store, z, g, named, n, SetLink(link)) == Phase(store, x, g, named, n, SetLink(link))
  {
    var y := Phase(store, x, g, named, n, SetLink(link));
    if PhaseActive(store, x, g, named, n) {
      var k, pf := n.value, ApplyEdit(store, x[n.value], SetLink(link));
      PutAgain(store, x[k], link, source);
      assert y == x[k := pf];
      assert PhaseActive(store, z, g, named, n);
      var w := Phase(store, z, g, named, n, SetLink(link));
      assert w == z[k := ApplyEdit(store, z[k], SetLink(link))];
      if z == y {
        assert w == y[k := pf];
      } else {
        var c := ApplyEdit(store, y[k], ClearIfLinksTo(source));
        assert w == y[k := c][k := pf];
        UpdateTwice(y, k, c, pf);
      }
      UpdateTwice(x, k, pf, pf);
    }
  }

  /** A second update of the same entry overrides the first. */
  lemma UpdateTwice<K, V>(m: map<K, V>, k: K, a: V, b: V)
    ensures m[k := a][k := b] == m[k := b]
  {
  }

  /** Writing a link again, whether or not it was cleared in between,
      gives what the first write gave. */
  lemma PutAgain(store: Store, fm: Frontmatter, link: string, source: string)
    ensures var pf := ApplyEdit(store, fm, SetLink(link));
      && ApplyEdit(store, pf, SetLink(link)) == pf
      && ApplyEdit(store, ApplyEdit(store, pf, ClearIfLinksTo(source)), SetLink(link)) == pf
  {
    var pf := ApplyEdit(store, fm, SetLink(link));
    SetLinkAbsorbs(store, fm, link, SetLink(link));
    SetLinkAbsorbs(store, pf, link, ClearIfLinksTo(source));
  }

  /** Repeating both phases on their own outcome changes nothing. */
  lemma PhasesIdempotent(store: Store, v: map<string, Frontmatter>, g: set<string>, named: bool, o: Option<string>, n: Option<string>, link: string, source: string)
    ensures var y := Phase(store, Phase(store, v, g, named, o, ClearIfLinksTo(source)), g, named, n, SetLink(link));
      Phase(store, Phase(store, y, g, named, o, ClearIfLinksTo(source)), g, named, n, SetLink(link)) == y
  {
    var x := Phase(store, v, g, named, o, ClearIfLinksTo(source));
    ClearPhaseIdempotent(store, v, g, named, o, source);
    ClearAfterPut(store, x, g, named, o, n, link, source);
    var y := Phase(store, x, g, named, n, SetLink(link));
    PutAfterClear(store, x, Phase(store, y, g, named, o, ClearIfLinksTo(source)), g, named, n, link, source);
  }

  /** Syncing the same change twice leaves the notes as syncing it once. */
  lemma SyncIdempotentVault(store: Store, st: SyncState, src: string, o: Option<string>, n: Option<string>)
    ensures var once := Sync(store, st, src, o, n);
      Sync(store, once, src, o, n).vault == once.vault
  {
    if src !in st.guard {
      var once := Sync(store, st, src, o, n);
      SyncGuard(store, st, src, o, n);
      SyncVault(store, st, src, o, n);
      SyncVault(store, once, src, o, n);
      PhasesIdempotent(store, st.vault, st.guard + {src}, IsUsableName(PersonNameFromPath(src)), o, n, BacklinkEdit(src).link, src);
    }
  }

  /** Handling the same event twice leaves the notes as handling it once:
      the reconciler converges on a state where both sides agree. */
  lemma ReconcileIdempotentVault(store: Store, st: SyncState, event: IndexerEvent)
    ensures var once := Reconcile(store, st, event);
      Reconcile(store, once, event).vault == once.vault
  {
    if Triggers(event) {
      SyncIdempotentVault(store, st, event.filePath, OldTarget(store, event), NewTarget(store, event));
    }
  }

  // ---------------------------------------------------------------------
  // The reconciler as an object.
  // ---------------------------------------------------------------------

  /** `RelationshipSyncManager`. The vault it writes to, the set of paths
      being synced, and the calls to `processFrontMatter` it has made are
      its state. `echo(p, before, after)` is the event, if any, the indexer
      emits when the frontmatter of `p` changes from `before` to `after`;
      it is delivered at once, while the write's target is still being
      synced, which is the interleaving that could otherwise loop. */
  class RelationshipSyncManager {
    const store: Store
    const echo: (string, Frontmatter, Frontmatter) -> Option<IndexerEvent>
    var vault: map<string, Frontmatter>
    var syncInProgress: set<string>
    var writes: seq<string>
    var subscribed: bool

    /** The indexer reports a change of a note under that note's path. */
    ghost predicate Valid()
      reads this
    {
      forall p, before, after :: echo(p, before, after).Some? ==> echo(p, before, after).value.filePath == p
    }

    function State(): SyncState
      reads this
    {
      SyncState(vault, syncInProgress, writes)
    }

    constructor(store: Store, echo: (string, Frontmatter, Frontmatter) -> Option<IndexerEvent>, vault: map<string, Frontmatter>)
      requires forall p, before, after :: echo(p, before, after).Some? ==> echo(p, before, after).value.filePath == p
      ensures Valid()
      ensures State() == SyncState(vault, {}, []) && subscribed
      ensures this.store == store && this.echo == echo
    {
      this.store := store;
      this.echo := echo;
      this.vault := vault;
      this.syncInProgress := {};
      this.writes := [];
      this.subscribed := true;
    }

    /** `handleIndexerEvent`: its effect is exactly `Reconcile`, echoes of
        its own writes included. */
    method HandleIndexerEvent(event: IndexerEvent)
      requires Valid()
      modifies this
      decreases if event.filePath in syncInProgress then 0 else 1, 3
      ensures Valid() && subscribed == old(subscribed)
      ensures State() == Reconcile(store, old(State()), event)
    {
      if !Triggers(event) || event.filePath in syncInProgress {
        return;
      }
      syncInProgress := syncInProgress + {event.filePath};
      var oldTarget := OldTarget(store, event);
      if oldTarget.Some? {
        RemoveRelationshipLink(oldTarget.value, event.filePath);
      }
      ghost var removed := State();
      var newTarget := NewTarget(store, event);
      if newTarget.Some? {
        AddRelationshipLink(newTarget.value, event.filePath);
      }
      ghost var done := State();
      syncInProgress := syncInProgress - {event.filePath};
      SyncByParts(store, old(State()), event.filePath, oldTarget, newTarget, removed, done);
    }

    /** `addRelationshipLink`. */
    method AddRelationshipLink(target: string, sourcePath: string)
      requires Valid()
      modifies this
      decreases 1, 2
      ensures Valid() && subscribed == old(subscribed)
      ensures State() == AddLinkStep(store, old(State()), target, sourcePath)
    {
      if target in syncInProgress {
        return;
      }
      syncInProgress := syncInProgress + {target};
      ghost var guarded := State();
      var sourceName := PersonNameFromPath(sourcePath);
      if IsUsableName(sourceName) {
        ProcessFrontMatter(target, BacklinkEdit(sourcePath));
      }
      ghost var written := State();
      syncInProgress := syncInProgress - {target};
      LinkStepByParts(store, old(State()), target, sourcePath, BacklinkEdit(sourcePath), written);
    }

    /** `removeRelationshipLink`. */
    method RemoveRelationshipLink(target: string, sourcePath: string)
      requires Valid()
      modifies this
      decreases 1, 2
      ensures Valid() && subscribed == old(subscribed)
      ensures State() == RemoveLinkStep(store, old(State()), target, sourcePath)
    {
      if target in syncInProgress {
        return;
      }
      syncInProgress := syncInProgress + {target};
      ghost var guarded := State();
      var sourceName := PersonNameFromPath(sourcePath);
      if IsUsableName(sourceName) {
        ProcessFrontMatter(target, ClearIfLinksTo(sourcePath));
      }
      ghost var written := State();
      syncInProgress := syncInProgress - {target};
      LinkStepByParts(store, old(State()), target, sourcePath, ClearIfLinksTo(sourcePath), written);
    }

    /** `app.fileManager.processFrontMatter(target, callback)` on a target
        being synced: the call is made; unless it throws, the callback's
        edit is saved and the indexer's event for it is delivered. */
    method ProcessFrontMatter(target: string, edit: Edit)
      requires Valid() && target in syncInProgress
      modifies this
      decreases 1, 1
      ensures Valid() && subscribed == old(subscribed)
      ensures State() == WriteStep(store, old(State()), target, edit)
    {
      writes := writes + [target];
      if store.fails(target) || target !in vault {
        return;
      }
      var before := vault[target];
      var after := ApplyEdit(store, before, edit);
      vault := vault[target := after];
      var event := echo(target, before, after);
      if event.Some? {
        Deliver(event.value);
      }
    }

    /** The indexer's subscription: an event for a note being synced
        reaches the handler and changes nothing. */
    method Deliver(event: IndexerEvent)
      requires Valid() && event.filePath in syncInProgress
      modifies this
      decreases 1, 0
      ensures Valid() && subscribed == old(subscribed)
      ensures State() == old(State())
    {
      if subscribed {
        HandleIndexerEvent(event);
        GuardedNoWrite(store, old(State()), event);
      }
    }

    /** `destroy`: unsubscribe and forget the paths being synced. */
    method Destroy()
      modifies this
      ensures !subscribed && syncInProgress == {}
      ensures vault == old(vault) && writes == old(writes)
    {
      subscribed := false;
      syncInProgress := {};
    }
  }
}

