/** Generating profiles at start-up: what is used in memory, and what a restart would load. */
module Startup {
  import opened Outcomes
  import opened Profiles
  import opened Merge

  type Loaded = map<string, Profile>

  /** A profile as `generate_profiles` makes it. */
  type SoundProfile = generated: Generated | Sound(generated)
    witness Generated(BareProfile.(autoGenerated := true), false)

  /** How one table is loaded, if it is not refused; the program's way is `Profiles.Load`. */
  type Loader = Table -> Option<Profile>

  ghost predicate Loads(load: Loader, entry: Entry) {
    entry.TableEntry? && load(entry.table).Some?
  }

  ghost function LoadEntry(load: Loader, entry: Entry): Profile
    requires Loads(load, entry)
  {
    load(entry.table).value
  }

  /** What loading the file gives, or None when it is refused; a file that names no profile has the bare default. */
  ghost function LoadAll(load: Loader, document: Document): Option<Loaded> {
    match document.profiles
    case NoProfiles => Some(map["default" := BareProfile])
    case ProfilesScalar => None
    case ProfilesTable(entries) =>
      if "default" in entries && (forall name | name in entries :: Loads(load, entries[name])) then
        Some(map name | name in entries :: LoadEntry(load, entries[name]))
      else None
  }

  /** What each generated profile writes. */
  function ValuesOf(generated: map<string, Generated>): (values: Generation)
    ensures values.Keys == generated.Keys
  {
    map name | name in generated :: GeneratedValues(generated[name])
  }

  /** The profiles generated, as the program holds them. */
  function InMemory(generated: map<string, Generated>): Loaded {
    map name | name in generated :: generated[name].profile
  }

  lemma ValuesAreFresh(generated: map<string, Generated>)
    ensures AllFresh(ValuesOf(generated))
  {
    forall name | name in generated ensures IsFresh(ValuesOf(generated)[name]) {
      GeneratedIsFresh(generated[name]);
    }
  }

  /** What loading each written table gives, and what it should give. */
  ghost function LoadEach(load: Loader, values: Generation): map<string, Option<Profile>> {
    map name | name in values :: load(values[name])
  }

  ghost function Each(memory: Loaded): map<string, Option<Profile>> {
    map name | name in memory :: Some(memory[name])
  }

  /** Each table that is written loads as the profile it was written for. */
  ghost predicate RoundTrips(load: Loader, values: Generation, memory: Loaded) {
    LoadEach(load, values) == Each(memory)
  }

  lemma RoundTripOf(load: Loader, values: Generation, memory: Loaded, name: string)
    requires RoundTrips(load, values, memory) && name in values
    ensures name in memory && load(values[name]) == Some(memory[name])
  {
    assert name in LoadEach(load, values);
    assert name in Each(memory);
  }

  lemma RoundTripKeys(load: Loader, values: Generation, memory: Loaded)
    requires RoundTrips(load, values, memory)
    ensures values.Keys == memory.Keys
  {
    forall name ensures name in values <==> name in memory {
      assert name in LoadEach(load, values) <==> name in Each(memory);
    }
  }

  ghost predicate Reloads(load: Loader, generated: Generated) {
    load(GeneratedValues(generated)) == Some(generated.profile)
  }

  lemma SoundReloads(generated: SoundProfile)
    ensures Reloads(Load, generated)
  {
    GeneratedReloads(generated);
  }

  lemma RoundTripsWhen(load: Loader, generated: map<string, Generated>)
    requires forall name | name in generated :: Reloads(load, generated[name])
    ensures RoundTrips(load, ValuesOf(generated), InMemory(generated))
  {
    var loads, each := LoadEach(load, ValuesOf(generated)), Each(InMemory(generated));
    forall name | name in generated ensures loads[name] == each[name] {
      assert Reloads(load, generated[name]);
    }
    assert loads.Keys == generated.Keys == each.Keys;
  }

  /** Every generated set survives writing and loading. */
  lemma GeneratedRoundTrips(generated: map<string, SoundProfile>)
    ensures RoundTrips(Load, ValuesOf(generated), InMemory(generated))
  {
    forall name | name in generated ensures Reloads(Load, generated[name]) {
      SoundReloads(generated[name]);
    }
    RoundTripsWhen(Load, generated);
  }

  /**
   * `_profiles_after_persist`: the generated profile where the write persisted it, and the loaded
   * one everywhere else.
   */
  method ProfilesAfterPersist(loaded: Loaded, memory: Loaded, names: seq<string>, persisted: set<string>)
    returns (profiles: Loaded)
    requires Names(names) == memory.Keys
    ensures profiles == AfterPersist(loaded, memory, persisted)
  {
    profiles := map[];
    ghost var done: set<string> := {};
    for i := 0 to |names|
      invariant done == Names(names[..i]) && done <= memory.Keys
      invariant profiles == Chosen(loaded, memory, persisted, done)
    {
      var name := names[i];
      NamesHold(names, i);
      assert names[..i + 1][..i] == names[..i];
      if name in persisted {
        profiles := profiles[name := memory[name]];
      } else if name in loaded {
        profiles := profiles[name := loaded[name]];
      }
      done := done + {name};
    }
    assert names[..|names|] == names;
    profiles := loaded + profiles;
  }

  /** What the loop over the generated names has chosen so far. */
  ghost function Chosen(loaded: Loaded, memory: Loaded, persisted: set<string>, done: set<string>): Loaded
    requires done <= memory.Keys
  {
    map name | name in done && (name in persisted || name in loaded) ::
      if name in persisted then memory[name] else loaded[name]
  }

  ghost function AfterPersist(loaded: Loaded, memory: Loaded, persisted: set<string>): Loaded {
    map name | name in loaded.Keys + (memory.Keys * persisted) ::
      if name in memory && name in persisted then memory[name] else loaded[name]
  }

  /** The section a write without force leaves. */
  ghost function Left(entries: Section, values: Generation): Section {
    Merged(entries - Orphans(entries, values), values, values.Keys, false)
  }

  /** What a write without force leaves under one name. */
  lemma LeftAt(entries: Section, values: Generation, name: string)
    requires name in Left(entries, values)
    ensures name in entries || name in values
    ensures Left(entries, values)[name] == if name in entries then entries[name] else TableEntry(values[name])
  {
  }

  lemma LeftKeys(entries: Section, values: Generation)
    ensures Left(entries, values).Keys == (entries.Keys - Orphans(entries, values)) + values.Keys
  {
  }

  /** A loaded file's section, and what loading it gave under each name. */
  ghost predicate LoadedFrom(load: Loader, entries: Section, loaded: Loaded) {
    forall name | name in entries :: Loads(load, entries[name]) && name in loaded && loaded[name] == LoadEntry(load, entries[name])
  }

  /** Without orphans, what a restart loads under a name is what memory holds. */
  lemma NameMatches(load: Loader, entries: Section, loaded: Loaded, values: Generation, memory: Loaded, name: string)
    requires RoundTrips(load, values, memory) && LoadedFrom(load, entries, loaded)
    requires name in Left(entries, values) && Orphans(entries, values) == {}
    ensures Loads(load, Left(entries, values)[name])
    ensures name in AfterPersist(loaded, memory, values.Keys - entries.Keys)
    ensures LoadEntry(load, Left(entries, values)[name]) == AfterPersist(loaded, memory, values.Keys - entries.Keys)[name]
  {
    LeftAt(entries, values, name);
    if name in values {
      RoundTripOf(load, values, memory, name);
    }
  }

  lemma NothingPruned(load: Loader, entries: Section, loaded: Loaded, values: Generation, memory: Loaded)
    requires RoundTrips(load, values, memory) && LoadedFrom(load, entries, loaded)
    requires loaded.Keys <= entries.Keys + values.Keys && Orphans(entries, values) == {}
    ensures var left := Left(entries, values);
            && (forall name | name in left :: Loads(load, left[name]))
            && (map name | name in left :: LoadEntry(load, left[name]))
                 == AfterPersist(loaded, memory, values.Keys - entries.Keys)
  {
    var left := Left(entries, values);
    var after := AfterPersist(loaded, memory, values.Keys - entries.Keys);
    LeftKeys(entries, values);
    RoundTripKeys(load, values, memory);
    forall name | name in left ensures Loads(load, left[name]) && name in after && LoadEntry(load, left[name]) == after[name] {
      NameMatches(load, entries, loaded, values, memory, name);
    }
    assert left.Keys == after.Keys;
  }

  /** Whether memory matches a restart: exactly when the write pruned nothing. */
  lemma MemoryMatches(load: Loader, document: Document, loaded: Loaded, values: Generation, memory: Loaded, after: Document)
    requires LoadAll(load, document) == Some(loaded) && RoundTrips(load, values, memory) && "default" in values
    requires after.profiles == ProfilesTable(Left(Entries(document), values))
    ensures var entries, orphans := Entries(document), Orphans(Entries(document), values);
            LoadAll(load, after) == Some(AfterPersist(loaded, memory, values.Keys - (entries.Keys - orphans))) <==> orphans == {}
  {
    var entries, orphans := Entries(document), Orphans(Entries(document), values);
    LeftKeys(entries, values);
    if orphans == {} {
      assert entries.Keys - {} == entries.Keys;
      NothingPruned(load, entries, loaded, values, memory);
    } else {
      var orphan :| orphan in orphans;
      assert orphan in AfterPersist(loaded, memory, values.Keys - (entries.Keys - orphans));
    }
  }

  /** A file whose one profile is `default` has nothing to prune. */
  lemma BareHasNoOrphans(load: Loader, document: Document, loaded: Loaded, values: Generation)
    requires LoadAll(load, document) == Some(loaded) && loaded.Keys == {"default"}
    ensures Orphans(Entries(document), values) == {}
  {
    forall name | name in Entries(document) ensures name == "default" {
      assert name in loaded;
    }
  }

  lemma AddedIs(base: Section, values: Generation, names: seq<string>)
    requires Walks(names, values)
    ensures Names(Group(base, values, names, false, Added)) == values.Keys - base.Keys
    ensures Group(base, values, names, false, Refreshed) == [] && Group(base, values, names, false, Unchanged) == []
  {
    var added := Group(base, values, names, false, Added);
    forall name ensures name in Names(added) <==> name in values && name !in base {
      GroupHolds(base, values, names, false, Added, name);
      if name in Names(added) {
        var i := NamesOnly(added, name);
      }
      if name in added {
        var i :| 0 <= i < |added| && added[i] == name;
        NamesHold(added, i);
      }
    }
    EmptyGroup(base, values, names, false, Refreshed);
    EmptyGroup(base, values, names, false, Unchanged);
  }

  /**
   * `StartupProfiles`' write: no force and no device.  What is used in memory equals what a
   * restart would load exactly when the write pruned no profile; on the bare start-up path, the
   * one that reaches this, it never does.
   */
  method PersistAtStartup(document: Document, loaded: Loaded, generated: map<string, SoundProfile>, names: seq<string>)
    returns (after: Document, profiles: Loaded, removed: set<string>)
    requires LoadAll(Load, document) == Some(loaded)
    requires "default" in generated && Names(names) == generated.Keys && |Names(names)| == |names|
    ensures LoadAll(Load, after) == Some(profiles) <==> removed == {}
    ensures loaded.Keys == {"default"} ==> LoadAll(Load, after) == Some(profiles)
  {
    var values, memory := ValuesOf(generated), InMemory(generated);
    assert "default" in values.Keys;
    assert Walks(names, values);
    GeneratedRoundTrips(generated);
    ValuesAreFresh(generated);
    after, profiles, removed := Persist(Load, document, loaded, values, memory, names);
  }

  /** The write itself, however a table is loaded. */
  method Persist(ghost load: Loader, document: Document, loaded: Loaded, values: Generation, memory: Loaded, names: seq<string>)
    returns (after: Document, profiles: Loaded, removed: set<string>)
    requires LoadAll(load, document) == Some(loaded) && RoundTrips(load, values, memory)
    requires AllFresh(values) && "default" in values && Walks(names, values)
    ensures LoadAll(load, after) == Some(profiles) <==> removed == {}
    ensures loaded.Keys == {"default"} ==> LoadAll(load, after) == Some(profiles)
  {
    var persisted;
    after, removed, persisted := WriteAtStartup(document, values, names);
    RoundTripKeys(load, values, memory);
    profiles := ProfilesAfterPersist(loaded, memory, names, persisted);
    MemoryMatches(load, document, loaded, values, memory, after);
    if loaded.Keys == {"default"} {
      BareHasNoOrphans(load, document, loaded, values);
    }
  }

  /** Write without force or a device: the names persisted are those that no table of the operator's holds. */
  method WriteAtStartup(document: Document, values: Generation, names: seq<string>)
    returns (after: Document, removed: set<string>, persisted: set<string>)
    requires AllFresh(values) && "default" in values && Walks(names, values)
    requires !document.profiles.ProfilesScalar?
    ensures removed == Orphans(Entries(document), values)
    ensures persisted == values.Keys - (Entries(document).Keys - removed)
    ensures after.profiles == ProfilesTable(Left(Entries(document), values))
  {
    var written := WriteProfiles(document, values, names, false, None);
    ghost var base := Entries(document) - Orphans(Entries(document), values);
    AddedIs(base, values, names);
    after, removed := written.document, written.result.removed;
    assert base.Keys == Entries(document).Keys - removed;
    var groups := written.result.groups;
    persisted := Names(groups[Added]) + Names(groups[Refreshed]) + Names(groups[Unchanged]);
  }
}
