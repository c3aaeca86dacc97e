/** Merging generated profiles into the operator's config file, and what a restart then loads. */
module Merge {
  import opened Outcomes
  import opened Profiles

  /** What the file holds under one profile's name. */
  datatype Entry = TableEntry(table: Table) | Scalar(value: Value)

  type Section = map<string, Entry>

  datatype ProfilesPart = NoProfiles | ProfilesTable(entries: Section) | ProfilesScalar

  datatype ScannerPart = NoScanner | ScannerTable(device: Option<Value>, others: map<nat, Value>) | ScannerScalar

  datatype Document = Document(profiles: ProfilesPart, scanner: ScannerPart)

  datatype Outcome = Added | Refreshed | Unchanged | SkippedNotGenerated | SkippedExisting

  /** What one write did, group by group; `removed` are the pruned names. */
  datatype WriteResult = WriteResult(groups: map<Outcome, seq<string>>, removed: set<string>, pinned: Option<string>)

  datatype Write = Refusal | Written(document: Document, result: WriteResult)

  /** What a generation writes, name by name. */
  type Generation = map<string, Table>

  /** The keys of a table the tool owns, and the ones the operator set. */
  ghost function Owned(table: Table): Table {
    map key | key in table && !key.OtherKey? :: table[key]
  }

  ghost function OperatorsOwn(table: Table): Table {
    map key | key in table && key.OtherKey? :: table[key]
  }

  /** A table a generation writes: owned keys alone, and flagged. */
  ghost predicate IsFresh(values: Table) {
    && Owned(values) == values
    && AutoGeneratedKey in values
    && values[AutoGeneratedKey] == Flag(true)
  }

  ghost predicate AllFresh(values: Generation) {
    forall name | name in values :: IsFresh(values[name])
  }

  /** What is generated is always a fresh table. */
  lemma GeneratedIsFresh(generated: Generated)
    ensures IsFresh(GeneratedValues(generated))
  {
    var values := GeneratedValues(generated);
    ValuesAt(generated, AutoGeneratedKey);
    forall key | key in values ensures !key.OtherKey? {
      ValuesAt(generated, key);
    }
  }

  /** `_is_auto_generated`: the loader's own reading of the flag. */
  predicate IsFlagged(entry: Entry) {
    && entry.TableEntry?
    && AutoGeneratedKey in entry.table
    && LaxFlag(entry.table[AutoGeneratedKey]) == Some(true)
  }

  /** What becomes of a generated name, given the entry the file has for it. */
  ghost function OutcomeOf(entry: Option<Entry>, values: Table, force: bool): Outcome {
    if entry.None? then Added
    else if !IsFlagged(entry.value) then SkippedNotGenerated
    else if !force then SkippedExisting
    else if Owned(entry.value.table) == values then Unchanged
    else Refreshed
  }

  /** The entry a merge leaves under a generated name. */
  ghost function MergedEntry(entry: Option<Entry>, values: Table, force: bool): Entry {
    match OutcomeOf(entry, values, force)
    case Added => TableEntry(values)
    case Refreshed => TableEntry(OperatorsOwn(entry.value.table) + values)
    case _ => entry.value
  }

  function EntryAt(entries: Section, name: string): Option<Entry> {
    if name in entries then Some(entries[name]) else None
  }

  /** The profiles section once these generated names have been merged into it. */
  ghost function Merged(entries: Section, values: Generation, names: set<string>, force: bool): Section
    requires names <= values.Keys
  {
    map name | name in entries.Keys + names ::
      if name in names then MergedEntry(EntryAt(entries, name), values[name], force) else entries[name]
  }

  lemma SplitTable(own: Table, values: Table)
    requires OperatorsOwn(own) == own && Owned(values) == values
    ensures Owned(own + values) == values && OperatorsOwn(own + values) == own
  {
    forall key | key in own ensures key.OtherKey? {
      assert key in OperatorsOwn(own);
    }
    forall key | key in values ensures !key.OtherKey? {
      assert key in Owned(values);
    }
  }

  lemma SameTable(a: Table, b: Table)
    requires forall key :: At(a, key) == At(b, key)
    ensures a == b
  {
    forall key ensures key in a <==> key in b {
      assert At(a, key) == At(b, key);
    }
    forall key | key in a ensures a[key] == b[key] {
      assert At(a, key) == At(b, key);
    }
  }

  /** What a refreshed table holds under each key. */
  lemma RefreshedAt(table: Table, values: Table, key: Key)
    requires Owned(values) == values
    ensures At(OperatorsOwn(table) + values, key) == if key.OtherKey? then At(table, key) else At(values, key)
  {
    assert key in values ==> key in Owned(values);
  }

  /** Set the owned keys of a fresh generation on the operator's table, and delete those it omits. */
  method RefreshTable(table: Table, values: Table) returns (after: Table)
    requires IsFresh(values)
    ensures after == OperatorsOwn(table) + values
  {
    after := table;
    for i := 0 to |OwnedKeys|
      invariant forall key: Key | key.OtherKey? :: At(after, key) == At(table, key)
      invariant forall k :: 0 <= k < i ==> At(after, OwnedKeys[k]) == At(values, OwnedKeys[k])
    {
      var key := OwnedKeys[i];
      after := if key in values then after[key := values[key]] else after - {key};
    }
    forall key ensures At(after, key) == At(OperatorsOwn(table) + values, key) {
      RefreshedAt(table, values, key);
      OwnedKeysAreAll(key);
    }
    SameTable(after, OperatorsOwn(table) + values);
  }

  /** Whether every owned key already is what a generation writes, in type and value. */
  predicate Matches(table: Table, values: Table) {
    forall key | key in OwnedKeys :: At(table, key) == At(values, key)
  }

  lemma MatchesIsOwned(table: Table, values: Table)
    requires IsFresh(values)
    ensures Matches(table, values) <==> Owned(table) == values
  {
    forall key ensures At(Owned(table), key) == if key in OwnedKeys then At(table, key) else None {
      OwnedKeysAreAll(key);
    }
    forall key ensures key !in OwnedKeys ==> At(values, key) == None {
      OwnedKeysAreAll(key);
      assert key in values ==> key in Owned(values);
    }
    if Matches(table, values) {
      SameTable(Owned(table), values);
    }
    if Owned(table) == values {
      forall key | key in OwnedKeys ensures At(table, key) == At(values, key) {
        assert At(Owned(table), key) == At(values, key);
      }
    }
  }

  /** `_merge_profile`. */
  method MergeProfile(entries: Section, name: string, values: Table, force: bool) returns (outcome: Outcome, after: Section)
    requires IsFresh(values)
    ensures outcome == OutcomeOf(EntryAt(entries, name), values, force)
    ensures after == entries[name := MergedEntry(EntryAt(entries, name), values, force)]
  {
    if name !in entries {
      return Added, entries[name := TableEntry(values)];
    }
    var existing := entries[name];
    assert entries[name := existing] == entries;
    if !IsFlagged(existing) {
      return SkippedNotGenerated, entries;
    }
    if !force {
      return SkippedExisting, entries;
    }
    MatchesIsOwned(existing.table, values);
    if Matches(existing.table, values) {
      return Unchanged, entries;
    }
    var refreshed := RefreshTable(existing.table, values);
    return Refreshed, entries[name := TableEntry(refreshed)];
  }

  /** A character `has_control_characters` finds. */
  predicate IsControl(c: char) {
    c < ' ' || '\U{007F}' <= c <= '\U{009F}'
  }

  predicate HasControl(text: string) {
    exists c | c in text :: IsControl(c)
  }

  /** `[scanner] device` is absent or empty. */
  predicate Unset(scanner: ScannerPart) {
    scanner.NoScanner? || (scanner.ScannerTable? && scanner.device in {None, Some(Text(""))})
  }

  /** `_pin_device`: refused where `scanner` is no table, and never over a set value. */
  method PinDevice(scanner: ScannerPart, device: string) returns (after: Option<ScannerPart>, pinned: Option<string>)
    ensures after.None? <==> scanner.ScannerScalar? && !HasControl(device)
    ensures after.None? ==> pinned == None
    ensures after.Some? ==> Pinned(scanner, Some(device), after.value, pinned)
  {
    if HasControl(device) {
      return Some(scanner), None;
    }
    if scanner.ScannerScalar? {
      return None, None;
    }
    var section := if scanner.NoScanner? then ScannerTable(None, map[]) else scanner;
    if section.device != None && section.device != Some(Text("")) {
      return Some(scanner), None;
    }
    return Some(section.(device := Some(Text(device)))), Some(device);
  }

  /** What a write does to `[scanner]`: a device only where none is set, and no other key. */
  ghost predicate Pinned(before: ScannerPart, device: Option<string>, after: ScannerPart, pinned: Option<string>) {
    && (pinned.Some? <==> device.Some? && Unset(before) && !HasControl(device.value))
    && (pinned.Some? ==> pinned == device && after.ScannerTable? && after.device == Some(Text(device.value)))
    && (pinned.None? ==> after == before)
    && (before.ScannerTable? ==> after.ScannerTable? && after.others == before.others)
  }

  /** The profiles a write prunes: flagged, no longer generated, and not `default`. */
  function Orphans(entries: Section, values: Generation): set<string> {
    if values.Keys <= {"default"} then {}
    else set name | name in entries && name !in values && name != "default" && IsFlagged(entries[name])
  }

  /** The generated names with one outcome, in order. */
  ghost function Group(entries: Section, values: Generation, names: seq<string>, force: bool, outcome: Outcome): seq<string> {
    if names == [] then []
    else
      var rest, last := names[..|names| - 1], names[|names| - 1];
      Group(entries, values, rest, force, outcome)
      + if last in values && OutcomeOf(EntryAt(entries, last), values[last], force) == outcome then [last] else []
  }

  function Entries(document: Document): Section {
    if document.profiles.ProfilesTable? then document.profiles.entries else map[]
  }

  /** A walk over the generated names: each of them once. */
  ghost predicate Walks(names: seq<string>, values: Generation) {
    Names(names) == values.Keys && |Names(names)| == |names|
  }

  /** Each generated name is in the group of its outcome, and in no other. */
  lemma {:induction false} GroupHolds(entries: Section, values: Generation, names: seq<string>, force: bool,
                                      outcome: Outcome, name: string)
    ensures name in Group(entries, values, names, force, outcome) <==>
              name in Names(names) && name in values && OutcomeOf(EntryAt(entries, name), values[name], force) == outcome
  {
    if names != [] {
      GroupHolds(entries, values, names[..|names| - 1], force, outcome, name);
    }
  }

  /** The groups a write reports are those of these entries. */
  ghost function Grouped(entries: Section, values: Generation, names: seq<string>, force: bool): map<Outcome, seq<string>> {
    map outcome | outcome in {Added, Refreshed, Unchanged, SkippedNotGenerated, SkippedExisting} ::
      Group(entries, values, names, force, outcome)
  }

  lemma GroupedOneMore(entries: Section, values: Generation, names: seq<string>, i: nat, force: bool)
    requires i < |names| && names[i] in values
    ensures var groups := Grouped(entries, values, names[..i], force);
            var outcome := OutcomeOf(EntryAt(entries, names[i]), values[names[i]], force);
            outcome in groups
            && Grouped(entries, values, names[..i + 1], force) == groups[outcome := groups[outcome] + [names[i]]]
  {
    assert names[..i + 1][..i] == names[..i];
    var groups, after := Grouped(entries, values, names[..i], force), Grouped(entries, values, names[..i + 1], force);
    var outcome := OutcomeOf(EntryAt(entries, names[i]), values[names[i]], force);
    assert outcome in {Added, Refreshed, Unchanged, SkippedNotGenerated, SkippedExisting};
    forall o | o in after ensures after[o] == if o == outcome then groups[o] + [names[i]] else groups[o] {
      assert groups[o] + [] == groups[o];
    }
    assert after.Keys == groups.Keys;
    assert after == groups[outcome := groups[outcome] + [names[i]]];
  }

  lemma MergedOneMore(entries: Section, values: Generation, done: set<string>, name: string, force: bool)
    requires done <= values.Keys && name in values && name !in done
    ensures var now := Merged(entries, values, done, force);
            && EntryAt(now, name) == EntryAt(entries, name)
            && now[name := MergedEntry(EntryAt(entries, name), values[name], force)]
                 == Merged(entries, values, done + {name}, force)
  {
  }

  lemma {:induction false} NewName(names: seq<string>, i: nat)
    requires |Names(names)| == |names| && i < |names|
    ensures names[i] !in Names(names[..i]) && names[i] in Names(names)
    ensures Names(names[..i + 1]) == Names(names[..i]) + {names[i]}
  {
    NamesHold(names, i);
    assert names[..i + 1][..i] == names[..i];
    if names[i] in Names(names[..i]) {
      var k := NamesOnly(names[..i], names[i]);
      NamesDiffer(names, k, i);
    }
  }

  lemma NothingMerged(entries: Section, values: Generation, names: seq<string>, force: bool)
    ensures Merged(entries, values, {}, force) == entries
    ensures Grouped(entries, values, names[..0], force)
         == map[Added := [], Refreshed := [], Unchanged := [], SkippedNotGenerated := [], SkippedExisting := []]
  {
    assert Merged(entries, values, {}, force) == entries;
  }

  /** The loop over the generated names. */
  method MergeEach(entries: Section, values: Generation, names: seq<string>, force: bool)
    returns (after: Section, groups: map<Outcome, seq<string>>)
    requires Walks(names, values) && AllFresh(values)
    ensures after == Merged(entries, values, values.Keys, force)
    ensures groups == Grouped(entries, values, names, force)
  {
    after := entries;
    groups := map[Added := [], Refreshed := [], Unchanged := [], SkippedNotGenerated := [], SkippedExisting := []];
    ghost var done: set<string> := {};
    NothingMerged(entries, values, names, force);
    for i := 0 to |names|
      invariant done == Names(names[..i]) && done <= values.Keys
      invariant after == Merged(entries, values, done, force)
      invariant groups == Grouped(entries, values, names[..i], force)
    {
      var name := names[i];
      NewName(names, i);
      MergedOneMore(entries, values, done, name, force);
      GroupedOneMore(entries, values, names, i, force);
      var outcome;
      outcome, after := MergeProfile(after, name, values[name], force);
      groups := groups[outcome := groups[outcome] + [name]];
      done := done + {name};
    }
    assert names[..|names|] == names;
  }

  /**
   * `write_profiles_to_config`: pin the device where none is set, prune the orphans, and merge
   * each generated profile.  Refused, with nothing written, where a section is no table.
   */
  method WriteProfiles(document: Document, values: Generation, names: seq<string>, force: bool, device: Option<string>)
    returns (w: Write)
    requires Walks(names, values) && AllFresh(values)
    ensures w.Refusal? <==>
              || document.profiles.ProfilesScalar?
              || (device.Some? && document.scanner.ScannerScalar? && !HasControl(device.value))
    ensures w.Written? ==>
              var base := Entries(document) - Orphans(Entries(document), values);
              && w.document.profiles == ProfilesTable(Merged(base, values, values.Keys, force))
              && w.result.groups == Grouped(base, values, names, force)
              && w.result.removed == Orphans(Entries(document), values)
              && Pinned(document.scanner, device, w.document.scanner, w.result.pinned)
  {
    var scanner: Option<ScannerPart>, pinned: Option<string> := Some(document.scanner), None;
    if device.Some? {
      scanner, pinned := PinDevice(document.scanner, device.value);
    }
    if scanner.None? || document.profiles.ProfilesScalar? {
      return Refusal;
    }
    var entries := Entries(document);
    var orphans := Orphans(entries, values);
    var after, groups := MergeEach(entries - orphans, values, names, force);
    return Written(Document(ProfilesTable(after), scanner.value), WriteResult(groups, orphans, pinned));
  }

  /** No key of the operator's, and no unflagged entry, changes in a merge. */
  lemma EntryFrames(entry: Entry, values: Table, force: bool)
    requires IsFresh(values)
    ensures !IsFlagged(entry) || !force ==> MergedEntry(Some(entry), values, force) == entry
    ensures entry.TableEntry? ==>
              && MergedEntry(Some(entry), values, force).TableEntry?
              && OperatorsOwn(MergedEntry(Some(entry), values, force).table) == OperatorsOwn(entry.table)
  {
    if OutcomeOf(Some(entry), values, force) == Refreshed {
      SplitTable(OperatorsOwn(entry.table), values);
    }
  }

  /**
   * The frame of a write, profile by profile: an unflagged profile, and one the generation does
   * not name, stay exactly as they were; only flagged ones other than `default` are removed; and
   * no key of the operator's changes anywhere.
   */
  lemma MergeFrames(entries: Section, values: Generation, force: bool, name: string)
    requires name in entries && AllFresh(values)
    ensures var after := Merged(entries - Orphans(entries, values), values, values.Keys, force);
            && (name in after <==> name !in Orphans(entries, values))
            && (!IsFlagged(entries[name]) || name == "default" || name in values ==> name in after)
            && (!IsFlagged(entries[name]) || name !in values || !force ==> name in after ==> after[name] == entries[name])
            && (name in after && entries[name].TableEntry? ==>
                  after[name].TableEntry? && OperatorsOwn(after[name].table) == OperatorsOwn(entries[name].table))
  {
    if name in values {
      EntryFrames(entries[name], values[name], force);
    }
  }

  /** A persisted entry holds exactly the generated owned values, and is flagged. */
  lemma PersistedEntry(entry: Option<Entry>, values: Table, force: bool)
    requires IsFresh(values) && OutcomeOf(entry, values, force) in {Added, Refreshed, Unchanged}
    ensures var after := MergedEntry(entry, values, force);
            after.TableEntry? && Owned(after.table) == values && IsFlagged(after)
  {
    if OutcomeOf(entry, values, force) == Refreshed {
      SplitTable(OperatorsOwn(entry.value.table), values);
    }
    var after := MergedEntry(entry, values, force);
    assert AutoGeneratedKey in Owned(after.table);
  }

  /** Every persisted name's table holds exactly what was generated for it. */
  lemma PersistedMatches(entries: Section, values: Generation, names: seq<string>, force: bool, name: string, outcome: Outcome)
    requires AllFresh(values) && outcome in {Added, Refreshed, Unchanged}
    requires name in Group(entries, values, names, force, outcome)
    ensures var after := Merged(entries, values, values.Keys, force);
            name in values && name in after && after[name].TableEntry? && Owned(after[name].table) == values[name]
  {
    GroupHolds(entries, values, names, force, outcome, name);
    PersistedEntry(EntryAt(entries, name), values[name], force);
  }

  /** A second merge of the same values finds nothing to add or refresh. */
  lemma MergedAgain(entry: Option<Entry>, values: Table, force: bool)
    requires IsFresh(values)
    ensures var once := MergedEntry(entry, values, force);
            && OutcomeOf(Some(once), values, force) !in {Added, Refreshed}
            && MergedEntry(Some(once), values, force) == once
  {
    if OutcomeOf(entry, values, force) in {Added, Refreshed, Unchanged} {
      PersistedEntry(entry, values, force);
    }
  }

  lemma NothingOrphaned(entries: Section, values: Generation, force: bool)
    ensures var base := entries - Orphans(entries, values);
            Orphans(Merged(base, values, values.Keys, force), values) == {}
  {
    var base := entries - Orphans(entries, values);
    var once := Merged(base, values, values.Keys, force);
    forall name ensures name !in Orphans(once, values) {
      if name !in values && name in once {
        assert name in base && once[name] == base[name] == entries[name];
      }
    }
  }

  lemma {:induction false} EmptyGroup(entries: Section, values: Generation, names: seq<string>, force: bool, outcome: Outcome)
    requires forall name | name in values :: OutcomeOf(EntryAt(entries, name), values[name], force) != outcome
    ensures Group(entries, values, names, force, outcome) == []
  {
    if names != [] {
      EmptyGroup(entries, values, names[..|names| - 1], force, outcome);
    }
  }

  /** Merging what was merged already changes nothing. */
  lemma MergedTwice(entries: Section, values: Generation, names: seq<string>, force: bool)
    requires AllFresh(values)
    ensures var once := Merged(entries, values, values.Keys, force);
            && Merged(once, values, values.Keys, force) == once
            && Group(once, values, names, force, Added) == []
            && Group(once, values, names, force, Refreshed) == []
  {
    var once := Merged(entries, values, values.Keys, force);
    forall name | name in values
      ensures OutcomeOf(EntryAt(once, name), values[name], force) !in {Added, Refreshed}
      ensures MergedEntry(EntryAt(once, name), values[name], force) == once[name]
    {
      MergedAgain(EntryAt(entries, name), values[name], force);
    }
    EmptyGroup(once, values, names, force, Added);
    EmptyGroup(once, values, names, force, Refreshed);
  }

  /**
   * Writing twice: the second write of the same generation adds, refreshes and removes nothing
   * and leaves the document as the first did.  It pins again exactly when the device id is empty
   * and the file has none, because an empty id reads as unset.
   */
  method WriteTwice(document: Document, values: Generation, names: seq<string>, force: bool, device: Option<string>)
    returns (first: Write, second: Write)
    requires Walks(names, values) && AllFresh(values)
    ensures first.Refusal? ==> second == first
    ensures first.Written? ==>
              && second.Written?
              && second.document == first.document
              && Added in second.result.groups && second.result.groups[Added] == []
              && Refreshed in second.result.groups && second.result.groups[Refreshed] == []
              && second.result.removed == {}
              && (second.result.pinned.Some? <==> device == Some("") && Unset(document.scanner))
  {
    first := WriteProfiles(document, values, names, force, device);
    if first.Refusal? {
      return first, first;
    }
    second := WriteProfiles(first.document, values, names, force, device);
    SecondMerge(Entries(document), values, names, force);
    PinsAgain(document.scanner, device, first.document.scanner, first.result.pinned, second.document.scanner, second.result.pinned);
  }

  lemma SecondMerge(entries: Section, values: Generation, names: seq<string>, force: bool)
    requires AllFresh(values)
    ensures var once := Merged(entries - Orphans(entries, values), values, values.Keys, force);
            var base := once - Orphans(once, values);
            && Orphans(once, values) == {}
            && Merged(base, values, values.Keys, force) == once
            && Grouped(base, values, names, force)[Added] == []
            && Grouped(base, values, names, force)[Refreshed] == []
  {
    var once := Merged(entries - Orphans(entries, values), values, values.Keys, force);
    NothingOrphaned(entries, values, force);
    assert once - {} == once;
    MergedTwice(entries - Orphans(entries, values), values, names, force);
  }

  lemma PinsAgain(before: ScannerPart, device: Option<string>, once: ScannerPart, first: Option<string>,
                  twice: ScannerPart, second: Option<string>)
    requires Pinned(before, device, once, first) && Pinned(once, device, twice, second)
    ensures twice == once
    ensures second.Some? <==> device == Some("") && Unset(before)
  {
  }
}
