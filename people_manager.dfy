/** The people cache: person notes by name (the file name without ".md"),
    kept up to date from the indexer's events, and the queries the plugin
    runs over it. */
module PeopleCache {
  import opened Wrappers
  import opened JsValues
  import opened Paths
  import opened PersonTypes
  import opened Indexer
  import Constants

  /** The cache: person name to person. */
  type Cache = map<string, Person>

  /** The frontmatter property that holds the follow-up date. */
  const FollowUpKey := "follow-up-date-notification"

  /** The key the queries read is the default of the configurable follow-up
      date property. */
  lemma FollowUpKeyIsDefaultProp()
    ensures FollowUpKey == Constants.DefaultFollowUpDateProp
  {
  }

  /** Milliseconds in an hour. */
  const HourMs := 3600000

  /** Every entry is stored under its own person's name. */
  predicate NamesConsistent(cache: Cache) {
    forall n :: n in cache ==> cache[n].name == n
  }

  /** The JavaScript truthiness of an optional path (`if (event.oldPath)`). */
  predicate PresentPath(path: Option<string>) {
    path.Some? && path.value != ""
  }

  /** The person a change event describes: its fields copied from the event
      and its source. */
  function PersonOf(event: IndexerEvent, name: string): Person
    requires event.source.Some?
  {
    var src := event.source.value;
    Person(event.filePath, name, src.frontmatter, src.mtime, src.folder)
  }

  /** The name a rename evicts: the one the old path gives, if the event
      has an old path. */
  function OldName(event: IndexerEvent): Option<string> {
    if PresentPath(event.oldPath) then PersonNameFromPath(event.oldPath.value) else None
  }

  /** The body of `handleIndexerEvent` once the event's name and its old
      name are known. A change with a source and a usable name upserts the
      person, first evicting a usable old name; a deletion with a usable
      name removes it; anything else is ignored. */
  function Update(cache: Cache, event: IndexerEvent, name: Option<string>, oldName: Option<string>): (r: Cache)
    ensures NamesConsistent(cache) ==> NamesConsistent(r)
  {
    if event.eventType == PersonChanged && event.source.Some? then
      if !IsUsableName(name) then cache
      else
        var evicted := if IsUsableName(oldName) then cache - {oldName.value} else cache;
        evicted[name.value := PersonOf(event, name.value)]
    else if event.eventType == PersonDeleted then
      if IsUsableName(name) then cache - {name.value} else cache
    else cache
  }

  /** `handleIndexerEvent` on the cache. */
  function ApplyIndexerEvent(cache: Cache, event: IndexerEvent): (r: Cache)
    ensures NamesConsistent(cache) ==> NamesConsistent(r)
  {
    Update(cache, event, PersonNameFromPath(event.filePath), OldName(event))
  }

  /** Whether handling the event publishes a new snapshot. */
  predicate Publishes(event: IndexerEvent) {
    var name := PersonNameFromPath(event.filePath);
    IsUsableName(name) &&
      ((event.eventType == PersonChanged && event.source.Some?) || event.eventType == PersonDeleted)
  }

  /** A change stores the person, with every field copied from the event,
      under the name of its file. */
  lemma ChangeUpserts(cache: Cache, event: IndexerEvent)
    requires event.eventType == PersonChanged && event.source.Some?
    requires IsUsableName(PersonNameFromPath(event.filePath))
    ensures var n := PersonNameFromPath(event.filePath).value;
      var r := ApplyIndexerEvent(cache, event);
      && n in r
      && r[n].filePath == event.filePath && r[n].name == n
      && r[n].frontmatter == event.source.value.frontmatter
      && r[n].mtime == event.source.value.mtime
      && r[n].folder == event.source.value.folder
  {
  }

  /** After a rename the new name is present and the old one is gone, unless
      the two coincide. */
  lemma RenameEvicts(cache: Cache, event: IndexerEvent)
    requires event.eventType == PersonChanged && event.source.Some?
    requires IsUsableName(PersonNameFromPath(event.filePath))
    requires PresentPath(event.oldPath) && IsUsableName(PersonNameFromPath(event.oldPath.value))
    ensures var n := PersonNameFromPath(event.filePath).value;
      var o := PersonNameFromPath(event.oldPath.value).value;
      var r := ApplyIndexerEvent(cache, event);
      n in r && (o != n ==> o !in r)
  {
  }

  /** Entries under other names are untouched by a change or a deletion. */
  lemma OthersUnchanged(cache: Cache, event: IndexerEvent, k: string)
    requires PersonNameFromPath(event.filePath) != Some(k)
    requires OldName(event) != Some(k)
    ensures k in ApplyIndexerEvent(cache, event) <==> k in cache
    ensures k in cache ==> ApplyIndexerEvent(cache, event)[k] == cache[k]
  {
    var name, oldName := PersonNameFromPath(event.filePath), OldName(event);
    assert ApplyIndexerEvent(cache, event) == Update(cache, event, name, oldName);
    UpdateOthers(cache, event, name, oldName, k);
  }

  lemma UpdateOthers(cache: Cache, event: IndexerEvent, name: Option<string>, oldName: Option<string>, k: string)
    requires name != Some(k) && oldName != Some(k)
    ensures k in Update(cache, event, name, oldName) <==> k in cache
    ensures k in cache ==> Update(cache, event, name, oldName)[k] == cache[k]
  {
  }

  /** A deletion removes the name; deleting a name that is not cached
      leaves the cache as it was. */
  lemma DeleteRemoves(cache: Cache, event: IndexerEvent)
    requires event.eventType == PersonDeleted
    ensures var name := PersonNameFromPath(event.filePath);
      IsUsableName(name) ==> name.value !in ApplyIndexerEvent(cache, event)
    ensures var name := PersonNameFromPath(event.filePath);
      (!IsUsableName(name) || name.value !in cache) ==> ApplyIndexerEvent(cache, event) == cache
  {
    UpdateDeletes(cache, event, PersonNameFromPath(event.filePath), OldName(event));
  }

  lemma UpdateDeletes(cache: Cache, event: IndexerEvent, name: Option<string>, oldName: Option<string>)
    requires event.eventType == PersonDeleted
    ensures IsUsableName(name) ==> name.value !in Update(cache, event, name, oldName)
    ensures (!IsUsableName(name) || name.value !in cache) ==> Update(cache, event, name, oldName) == cache
  {
  }

  /** An event the cache ignores is one that publishes nothing. */
  lemma SilentEventsChangeNothing(cache: Cache, event: IndexerEvent)
    requires !Publishes(event)
    ensures ApplyIndexerEvent(cache, event) == cache
  {
  }

  /** A note that the indexer reports as changed ends up in the cache under
      its file name, with frontmatter that passes the person schema. */
  lemma IndexedNoteIsCached(cache: Cache, event: GenericIndexerEvent, files: VaultFiles, folder: string, n: string)
    requires event.eventType == FileChanged && event.source.Some?
    requires folder == "" || Text.EndsWith(folder, "/")
    requires '/' !in n && n != ""
    requires event.filePath == folder + n + MarkdownExtension && event.filePath in files
    ensures var t := TranslateGenericEvent(event, files);
      && t.Some?
      && n in ApplyIndexerEvent(cache, t.value)
      && ConformsToSchema(ApplyIndexerEvent(cache, t.value)[n].frontmatter)
  {
    PersonNameOfNote(folder, n);
  }

  /** An injective map has as many values as keys. */
  lemma {:induction false} NamedValuesCount(cache: Cache)
    requires NamesConsistent(cache)
    ensures |cache.Values| == |cache|
    decreases |cache|
  {
    if cache != map[] {
      var k :| k in cache;
      var rest := cache - {k};
      NamedValuesCount(rest);
      assert rest.Values == cache.Values - {cache[k]} by {
        forall p | p in cache.Values - {cache[k]} ensures p in rest.Values {
          var j :| j in cache && cache[j] == p;
          assert j != k;
          assert rest[j] == p;
        }
        forall p | p in rest.Values ensures p in cache.Values - {cache[k]} {
          var j :| j in rest && rest[j] == p;
          assert cache[j] == p && cache[j].name == j && j != k;
        }
      }
      assert cache[k] in cache.Values;
    }
  }

  /** The follow-up time of a person, when the property is present, truthy
      and parses as a date (`new Date(value)` that is not an invalid date). */
  function FollowUpTime(person: Person, parseDate: Value -> Option<int>): (t: Option<int>)
    ensures t.Some? ==> FollowUpKey in person.frontmatter && Truthy(person.frontmatter[FollowUpKey])
    ensures FollowUpKey in person.frontmatter && Truthy(person.frontmatter[FollowUpKey]) ==>
      t == parseDate(person.frontmatter[FollowUpKey])
  {
    var fm := person.frontmatter;
    if FollowUpKey in fm && Truthy(fm[FollowUpKey]) then parseDate(fm[FollowUpKey]) else None
  }

  /** The follow-up time lies in [now, now + hours]. */
  predicate DueWithin(person: Person, parseDate: Value -> Option<int>, now: int, withinHours: int) {
    var t := FollowUpTime(person, parseDate);
    t.Some? && now <= t.value <= now + withinHours * HourMs
  }

  /** The follow-up time lies strictly before now. */
  predicate Overdue(person: Person, parseDate: Value -> Option<int>, now: int) {
    var t := FollowUpTime(person, parseDate);
    t.Some? && t.value < now
  }

  /** `getStats`: the cache size and the sizes of the 24-hour upcoming and
      the overdue lists. */
  datatype Stats = Stats(totalPeople: nat, upcomingFollowUps: nat, overdueFollowUps: nat)

  /** `PeopleManager`: the cache, the snapshots published on `people$`
      (starting with the empty map), and whether the subscriptions are
      live. */
  class PeopleManager {
    var peopleCache: Cache
    var published: seq<Cache>
    var subscribed: bool
    var completed: bool

    ghost predicate Valid()
      reads this
    {
      && NamesConsistent(peopleCache)
      && |published| > 0
      && (subscribed ==> published[|published| - 1] == peopleCache && !completed)
    }

    constructor ()
      ensures Valid()
      ensures peopleCache == map[] && published == [map[]] && subscribed && !completed
    {
      peopleCache := map[];
      published := [map[]];
      subscribed := true;
      completed := false;
    }

    /** `handleIndexerEvent`: update the cache and publish a copy of it
        whenever it was touched. After `destroy` no event arrives. */
    method HandleIndexerEvent(event: IndexerEvent)
      requires Valid()
      modifies this
      ensures Valid()
      ensures old(subscribed) ==> peopleCache == ApplyIndexerEvent(old(peopleCache), event)
      ensures old(subscribed) ==>
        published == old(published) + (if Publishes(event) then [peopleCache] else [])
      ensures !old(subscribed) ==> peopleCache == old(peopleCache) && published == old(published)
      ensures subscribed == old(subscribed) && completed == old(completed)
    {
      if !subscribed {
        return;
      }
      var next := ApplyIndexerEvent(peopleCache, event);
      if Publishes(event) {
        peopleCache := next;
        published := published + [peopleCache];
      } else {
        SilentEventsChangeNothing(peopleCache, event);
      }
    }

    /** `getAllPeople`. */
    function GetAllPeople(): (people: set<Person>)
      reads this
      ensures forall p :: p in people <==> exists n :: n in peopleCache && peopleCache[n] == p
    {
      peopleCache.Values
    }

    /** `getPerson`. */
    function GetPerson(name: string): (person: Option<Person>)
      reads this
      requires Valid()
      ensures person.Some? <==> name in peopleCache
      ensures person.Some? ==> person.value == peopleCache[name] && person.value.name == name
    {
      if name in peopleCache then Some(peopleCache[name]) else None
    }

    /** `getPeopleWithUpcomingFollowUps`. */
    function UpcomingFollowUps(withinHours: int, now: int, parseDate: Value -> Option<int>): (people: set<Person>)
      reads this
      ensures people <= GetAllPeople()
      ensures forall p :: p in people <==> p in GetAllPeople() && DueWithin(p, parseDate, now, withinHours)
    {
      set p | p in peopleCache.Values && DueWithin(p, parseDate, now, withinHours)
    }

    /** `getPeopleWithOverdueFollowUps`. */
    function OverdueFollowUps(now: int, parseDate: Value -> Option<int>): (people: set<Person>)
      reads this
      ensures people <= GetAllPeople()
      ensures forall p :: p in people <==> p in GetAllPeople() && Overdue(p, parseDate, now)
    {
      set p | p in peopleCache.Values && Overdue(p, parseDate, now)
    }

    /** `getPeopleBySegment`: strict equality with a string. */
    function PeopleBySegment(segment: string): (people: set<Person>)
      reads this
      ensures forall p :: p in people <==>
        p in GetAllPeople() && "segment" in p.frontmatter && p.frontmatter["segment"] == Str(segment)
    {
      set p | p in peopleCache.Values && "segment" in p.frontmatter && p.frontmatter["segment"] == Str(segment)
    }

    /** `getPeopleByStatus`: strict equality of `status-business`. */
    function PeopleByStatus(status: string): (people: set<Person>)
      reads this
      ensures forall p :: p in people <==>
        p in GetAllPeople() && "status-business" in p.frontmatter && p.frontmatter["status-business"] == Str(status)
    {
      set p | p in peopleCache.Values && "status-business" in p.frontmatter
                && p.frontmatter["status-business"] == Str(status)
    }

    /** `getStats`. The two lists read the clock separately, at `upcomingNow`
        and `overdueNow`. */
    function GetStats(upcomingNow: int, overdueNow: int, parseDate: Value -> Option<int>): (stats: Stats)
      reads this
      requires Valid()
      ensures stats.totalPeople == |peopleCache|
      ensures stats.upcomingFollowUps == |UpcomingFollowUps(24, upcomingNow, parseDate)| <= stats.totalPeople
      ensures stats.overdueFollowUps == |OverdueFollowUps(overdueNow, parseDate)| <= stats.totalPeople
      ensures upcomingNow == overdueNow ==>
        stats.upcomingFollowUps + stats.overdueFollowUps <= stats.totalPeople
    {
      CountsBounded(this, 24, upcomingNow, overdueNow, parseDate);
      Stats(|peopleCache|, |UpcomingFollowUps(24, upcomingNow, parseDate)|,
            |OverdueFollowUps(overdueNow, parseDate)|)
    }

    /** `destroy`: drop the subscriptions, clear the cache and complete the
        stream. */
    method Destroy()
      requires Valid()
      modifies this
      ensures Valid()
      ensures peopleCache == map[] && !subscribed && completed && published == old(published)
    {
      subscribed := false;
      peopleCache := map[];
      completed := true;
    }
  }

  /** Each list is no longer than the cache, and for one reading of the
      clock the two lists together are no longer than the cache. */
  lemma CountsBounded(pm: PeopleManager, withinHours: int, upcomingNow: int, overdueNow: int,
                      parseDate: Value -> Option<int>)
    requires NamesConsistent(pm.peopleCache)
    ensures |pm.UpcomingFollowUps(withinHours, upcomingNow, parseDate)| <= |pm.peopleCache|
    ensures |pm.OverdueFollowUps(overdueNow, parseDate)| <= |pm.peopleCache|
    ensures upcomingNow == overdueNow ==>
      |pm.UpcomingFollowUps(withinHours, upcomingNow, parseDate)| + |pm.OverdueFollowUps(overdueNow, parseDate)|
        <= |pm.peopleCache|
  {
    var up := pm.UpcomingFollowUps(withinHours, upcomingNow, parseDate);
    var over := pm.OverdueFollowUps(overdueNow, parseDate);
    NamedValuesCount(pm.peopleCache);
    SubsetCardinality(up, pm.peopleCache.Values);
    SubsetCardinality(over, pm.peopleCache.Values);
    if upcomingNow == overdueNow {
      UpcomingOverdueDisjoint(pm, withinHours, upcomingNow, parseDate);
      SubsetCardinality(up + over, pm.peopleCache.Values);
    }
  }

  /** A subset is no larger than its superset. */
  lemma SubsetCardinality<T>(a: set<T>, b: set<T>)
    requires a <= b
    ensures |a| <= |b|
  {
    assert b == a + (b - a);
  }

  /** For one reading of the clock a follow-up is upcoming or overdue, never
      both. */
  lemma UpcomingOverdueDisjoint(pm: PeopleManager, withinHours: int, now: int, parseDate: Value -> Option<int>)
    ensures pm.UpcomingFollowUps(withinHours, now, parseDate) !! pm.OverdueFollowUps(now, parseDate)
  {
  }

  /** A wider window finds every person a narrower one finds. */
  lemma UpcomingMonotone(pm: PeopleManager, h1: int, h2: int, now: int, parseDate: Value -> Option<int>)
    requires h1 <= h2
    ensures pm.UpcomingFollowUps(h1, now, parseDate) <= pm.UpcomingFollowUps(h2, now, parseDate)
  {
    forall p | p in pm.UpcomingFollowUps(h1, now, parseDate)
      ensures p in pm.UpcomingFollowUps(h2, now, parseDate)
    {
      assert h1 * HourMs <= h2 * HourMs;
    }
  }

  /** A negative window finds nobody; a zero window finds exactly the
      follow-ups due at `now`. */
  lemma UpcomingWindowEdges(pm: PeopleManager, now: int, parseDate: Value -> Option<int>)
    ensures forall h :: h < 0 ==> pm.UpcomingFollowUps(h, now, parseDate) == {}
    ensures forall p :: p in pm.UpcomingFollowUps(0, now, parseDate) <==>
      p in pm.GetAllPeople() && FollowUpTime(p, parseDate) == Some(now)
  {
    forall h | h < 0 ensures pm.UpcomingFollowUps(h, now, parseDate) == {} {
      assert forall p :: p !in pm.UpcomingFollowUps(h, now, parseDate);
    }
  }
}
