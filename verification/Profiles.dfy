/** Generating scan profiles from what a device reports, and what reloading a profile means. */
module Profiles {
  import opened Outcomes
  import opened Text

  datatype SourceKind = Flatbed | Feeder | FeederDuplex | AutoSource | UnknownSource

  /** `classify_source`: the branch order is load-bearing. */
  function Classify(source: string): SourceKind {
    var lower := Lower(Strip(source));
    if lower == "auto" then AutoSource
    else if Contains(lower, "duplex") then FeederDuplex
    else if Contains(lower, "adf") || Contains(lower, "document feeder") || Contains(lower, "feeder") then Feeder
    else if Contains(lower, "flatbed") then Flatbed
    else UnknownSource
  }

  predicate IsSlugChar(c: char) {
    'a' <= c <= 'z' || '0' <= c <= '9'
  }

  /** Each run of characters a slug cannot hold becomes one hyphen. */
  function Collapse(s: string, inRun: bool): string {
    if s == [] then []
    else if IsSlugChar(s[0]) then [s[0]] + Collapse(s[1..], false)
    else (if inRun then [] else ['-']) + Collapse(s[1..], true)
  }

  function TrimHyphens(s: string): string {
    if s != [] && s[0] == '-' then TrimHyphens(s[1..])
    else if s != [] && s[|s| - 1] == '-' then TrimHyphens(s[..|s| - 1])
    else s
  }

  /** `_slugify`. */
  function Slugify(source: string): string {
    var slug := TrimHyphens(Collapse(Lower(source), false));
    if slug == [] then "source" else slug
  }

  /** Letters, digits and single hyphens, none of them at an end. */
  predicate WellSlugged(s: string) {
    && s != []
    && SlugChars(s)
    && s[0] != '-' && s[|s| - 1] != '-'
  }

  /** Letters, digits and hyphens, no two hyphens together. */
  predicate SlugChars(s: string) {
    && (forall i :: 0 <= i < |s| ==> IsSlugChar(s[i]) || s[i] == '-')
    && (forall i :: 0 < i < |s| ==> s[i] != '-' || s[i - 1] != '-')
  }

  lemma {:induction false} CollapseSlugs(s: string, inRun: bool)
    ensures SlugChars(Collapse(s, inRun))
    ensures inRun && Collapse(s, inRun) != [] ==> Collapse(s, inRun)[0] != '-'
  {
    if s != [] {
      CollapseSlugs(s[1..], !IsSlugChar(s[0]));
    }
  }

  lemma {:induction false} TrimSlugs(s: string)
    requires SlugChars(s)
    ensures SlugChars(TrimHyphens(s))
    ensures TrimHyphens(s) != [] ==> TrimHyphens(s)[0] != '-' && TrimHyphens(s)[|TrimHyphens(s)| - 1] != '-'
  {
    if s != [] && s[0] == '-' {
      TrimSlugs(s[1..]);
    } else if s != [] && s[|s| - 1] == '-' {
      TrimSlugs(s[..|s| - 1]);
    }
  }

  /** Whatever a scanner calls its source, the slug is one a profile may be named. */
  lemma SlugsAreWellFormed(source: string)
    ensures WellSlugged(Slugify(source))
  {
    CollapseSlugs(Lower(source), false);
    TrimSlugs(Collapse(Lower(source), false));
  }

  /** The n-th name a slug can take: bare, and then with a number after it. */
  function Candidate(slug: string, n: nat): string
    requires n >= 1
  {
    if n == 1 then slug else slug + "-" + Decimal(n)
  }

  lemma CandidatesDiffer(slug: string, n: nat, m: nat)
    requires n >= 1 && m >= 1 && Candidate(slug, n) == Candidate(slug, m)
    ensures n == m
  {
    PaddedReadsBack(n, 1);
    PaddedReadsBack(m, 1);
    if n > 1 && m > 1 {
      NumberedApart(slug + "-", n, slug + "-", m);
    }
  }

  /** All the names up to one that are taken are that many names. */
  lemma {:induction false} TakenCandidates(slug: string, n: nat, claimed: set<string>)
    requires forall k :: 1 <= k <= n ==> Candidate(slug, k) in claimed
    ensures n <= |claimed|
  {
    if n > 0 {
      forall k | 1 <= k <= n - 1 ensures Candidate(slug, k) in claimed - {Candidate(slug, n)} {
        if Candidate(slug, k) == Candidate(slug, n) {
          CandidatesDiffer(slug, k, n);
        }
      }
      assert Candidate(slug, n) in claimed;
      TakenCandidates(slug, n - 1, claimed - {Candidate(slug, n)});
    }
  }

  /**
   * `_claim_slug`: the bare slug, or the first numbered one nobody has claimed.  It always finds
   * one, and what it returns was free.
   */
  method ClaimSlug(source: string, claimed: set<string>) returns (name: string, ghost n: nat)
    ensures name !in claimed
    ensures n >= 1 && name == Candidate(Slugify(source), n)
    ensures forall k :: 1 <= k < n ==> Candidate(Slugify(source), k) in claimed
  {
    var slug := Slugify(source);
    name := slug;
    var suffix: nat := 1;
    while name in claimed
      invariant suffix >= 1 && name == Candidate(slug, suffix)
      invariant forall k :: 1 <= k < suffix ==> Candidate(slug, k) in claimed
      invariant suffix - 1 <= |claimed|
      decreases |claimed| + 1 - suffix
    {
      TakenCandidates(slug, suffix, claimed);
      suffix := suffix + 1;
      name := slug + "-" + Decimal(suffix);
    }
    n := suffix;
  }

  datatype AutoSourceMode = AsFlatbed | AsAdf

  datatype Duplex = NoDuplex | HardwareDuplex | ManualDuplex

  /** A profile as the program holds it; `others` are the keys only the operator sets. */
  datatype Profile = Profile(labelText: string, description: string, source: string, resolution: int, mode: string,
                             autoSourceMode: AutoSourceMode, duplex: Duplex, autoGenerated: bool, others: map<nat, Value>)

  /** A generated profile, and whether it was given a source at all. */
  datatype Generated = Generated(profile: Profile, namesSource: bool)

  /** The keys the tool owns, and every other key of a profile's table. */
  datatype Key = LabelKey | DescriptionKey | SourceKey | ResolutionKey | ModeKey | AutoSourceModeKey | DuplexKey
               | AutoGeneratedKey | OtherKey(code: nat)

  /** A value in the file; numbers, flags and text are different things even where they compare equal. */
  datatype Value = Text(text: string) | Number(number: int) | Flag(flag: bool) | OtherValue(code: nat)

  type Table = map<Key, Value>

  const DefaultSource: string := "Flatbed"
  const DefaultResolution: int := 300
  const DefaultMode: string := "color"

  /** `ProfileConfig()`. */
  const BareProfile: Profile :=
    Profile("", "", DefaultSource, DefaultResolution, DefaultMode, AsFlatbed, NoDuplex, false, map[])

  /** `_is_legacy_manual_duplex_source`. */
  predicate IsLegacyManualDuplex(source: string) {
    Contains(Lower(source), "manual") && Contains(Lower(source), "duplex")
  }

  /** How pydantic reads a flag, when it reads one at all. */
  function LaxFlag(value: Value): Option<bool> {
    match value
    case Flag(flag) => Some(flag)
    case Number(number) => if number == 1 then Some(true) else if number == 0 then Some(false) else None
    case Text(text) =>
      var lower := Lower(text);
      if lower in {"1", "on", "t", "true", "y", "yes"} then Some(true)
      else if lower in {"0", "off", "f", "false", "n", "no"} then Some(false)
      else None
    case OtherValue(_) => None
  }

  /** A text key, its default when the table has none, or a refusal. */
  function TextAt(table: Table, key: Key, otherwise: string): Option<string> {
    if key !in table then Some(otherwise) else if table[key].Text? then Some(table[key].text) else None
  }

  function AutoSourceModeAt(table: Table): Option<AutoSourceMode> {
    if AutoSourceModeKey !in table then Some(AsFlatbed)
    else if table[AutoSourceModeKey] == Text("flatbed") then Some(AsFlatbed)
    else if table[AutoSourceModeKey] == Text("adf") then Some(AsAdf)
    else None
  }

  /** The duplex key, or manual duplex for a legacy source that leaves it out. */
  function DuplexAt(table: Table): Option<Duplex> {
    if DuplexKey in table then
      if table[DuplexKey] == Text("none") then Some(NoDuplex)
      else if table[DuplexKey] == Text("hardware") then Some(HardwareDuplex)
      else if table[DuplexKey] == Text("manual") then Some(ManualDuplex)
      else None
    else if SourceKey in table && table[SourceKey].Text? && IsLegacyManualDuplex(table[SourceKey].text) then Some(ManualDuplex)
    else Some(NoDuplex)
  }

  function Others(table: Table): map<nat, Value> {
    map key | key in table && key.OtherKey? :: key.code := table[key]
  }

  /** What loading a profile's table gives, or None when the loader refuses it. */
  function Load(table: Table): Option<Profile> {
    var labelText, description := TextAt(table, LabelKey, ""), TextAt(table, DescriptionKey, "");
    var source, mode := TextAt(table, SourceKey, DefaultSource), TextAt(table, ModeKey, DefaultMode);
    var autoSourceMode, duplex := AutoSourceModeAt(table), DuplexAt(table);
    var resolution :=
      if ResolutionKey !in table then Some(DefaultResolution)
      else if table[ResolutionKey].Number? && 1 <= table[ResolutionKey].number <= 12800 then Some(table[ResolutionKey].number)
      else None;
    var generated := if AutoGeneratedKey in table then LaxFlag(table[AutoGeneratedKey]) else Some(false);
    if labelText.None? || description.None? || source.None? || mode.None? || autoSourceMode.None? || duplex.None?
       || resolution.None? || generated.None? then None
    else
      Some(Profile(labelText.value, description.value, source.value, resolution.value, mode.value, autoSourceMode.value,
                   duplex.value, generated.value, Others(table)))
  }

  function DuplexText(duplex: Duplex): string {
    match duplex
    case NoDuplex => "none"
    case HardwareDuplex => "hardware"
    case ManualDuplex => "manual"
  }

  /** What a fresh generation writes under a key, if anything. */
  function GeneratedAt(generated: Generated, key: Key): Option<Value> {
    var p := generated.profile;
    match key
    case LabelKey => Some(Text(p.labelText))
    case DescriptionKey => Some(Text(p.description))
    case SourceKey => if generated.namesSource then Some(Text(p.source)) else None
    case ResolutionKey => Some(Number(p.resolution))
    case ModeKey => Some(Text(p.mode))
    case AutoSourceModeKey => if p.autoSourceMode != AsFlatbed then Some(Text("adf")) else None
    case DuplexKey => if p.duplex != NoDuplex then Some(Text(DuplexText(p.duplex))) else None
    case AutoGeneratedKey => Some(Flag(true))
    case OtherKey(_) => None
  }

  const OwnedKeys: seq<Key> :=
    [LabelKey, DescriptionKey, SourceKey, ResolutionKey, ModeKey, AutoSourceModeKey, DuplexKey, AutoGeneratedKey]

  lemma OwnedKeysAreAll(key: Key)
    ensures !key.OtherKey? <==> key in OwnedKeys
  {
    assert OwnedKeys[0] == LabelKey && OwnedKeys[1] == DescriptionKey && OwnedKeys[2] == SourceKey;
    assert OwnedKeys[3] == ResolutionKey && OwnedKeys[4] == ModeKey && OwnedKeys[5] == AutoSourceModeKey;
    assert OwnedKeys[6] == DuplexKey && OwnedKeys[7] == AutoGeneratedKey;
  }

  /** `_generated_values`: what a fresh generation writes for a profile. */
  function GeneratedValues(generated: Generated): Table {
    map key | key in OwnedKeys && GeneratedAt(generated, key).Some? :: GeneratedAt(generated, key).value
  }

  /** What `generate_profiles` puts in every profile: the duplex its source calls for, and its own flag. */
  predicate Sound(generated: Generated) {
    var p := generated.profile;
    && p.autoGenerated
    && p.others == map[]
    && 1 <= p.resolution <= 12800
    && p.duplex == (if generated.namesSource && Classify(p.source) == FeederDuplex then HardwareDuplex else NoDuplex)
    && (!generated.namesSource ==> p.source == DefaultSource)
  }

  /** A source the loader would read as manual duplex is one the generator calls duplex. */
  lemma LegacySourcesAreDuplex(source: string)
    requires IsLegacyManualDuplex(source)
    ensures Classify(source) == FeederDuplex
  {
    ContainsStripped(source, "duplex");
    assert !Contains("auto", "duplex");
  }

  /** What the table holds under a key. */
  function At(table: Table, key: Key): Option<Value> {
    if key in table then Some(table[key]) else None
  }

  lemma ValuesAt(generated: Generated, key: Key)
    ensures At(GeneratedValues(generated), key) == GeneratedAt(generated, key)
  {
    OwnedKeysAreAll(key);
  }

  lemma ReloadedDuplex(generated: Generated)
    requires Sound(generated)
    ensures DuplexAt(GeneratedValues(generated)) == Some(generated.profile.duplex)
  {
    ValuesAt(generated, DuplexKey);
    ValuesAt(generated, SourceKey);
    if generated.namesSource && IsLegacyManualDuplex(generated.profile.source) {
      LegacySourcesAreDuplex(generated.profile.source);
    }
  }

  lemma ReloadedText(generated: Generated)
    requires Sound(generated)
    ensures var table := GeneratedValues(generated);
            && TextAt(table, LabelKey, "") == Some(generated.profile.labelText)
            && TextAt(table, DescriptionKey, "") == Some(generated.profile.description)
            && TextAt(table, SourceKey, DefaultSource) == Some(generated.profile.source)
            && TextAt(table, ModeKey, DefaultMode) == Some(generated.profile.mode)
  {
    ValuesAt(generated, LabelKey);
    ValuesAt(generated, DescriptionKey);
    ValuesAt(generated, SourceKey);
    ValuesAt(generated, ModeKey);
  }

  lemma ReloadedRest(generated: Generated)
    requires Sound(generated)
    ensures var table := GeneratedValues(generated);
            && At(table, ResolutionKey) == Some(Number(generated.profile.resolution))
            && At(table, AutoGeneratedKey) == Some(Flag(true))
            && AutoSourceModeAt(table) == Some(generated.profile.autoSourceMode)
  {
    ValuesAt(generated, ResolutionKey);
    ValuesAt(generated, AutoSourceModeKey);
    ValuesAt(generated, AutoGeneratedKey);
  }

  lemma NoOthers(generated: Generated)
    ensures Others(GeneratedValues(generated)) == map[]
  {
    forall code ensures code !in Others(GeneratedValues(generated)) {
      ValuesAt(generated, OtherKey(code));
    }
  }

  /**
   * Every generated profile survives being written without its defaults and loaded again, the
   * legacy translation included.
   */
  lemma GeneratedReloads(generated: Generated)
    requires Sound(generated)
    ensures Load(GeneratedValues(generated)) == Some(generated.profile)
  {
    ReloadedText(generated);
    ReloadedRest(generated);
    ReloadedDuplex(generated);
    NoOthers(generated);
  }

  predicate IsLetter(c: char) {
    'a' <= c <= 'z'
  }

  /** The word stands in the text on its own. */
  predicate HasWord(s: string, word: string) {
    exists i {:trigger s[i..i + |word|]} :: 0 <= i <= |s| - |word|
      && s[i..i + |word|] == word
      && (i == 0 || !IsLetter(s[i - 1]))
      && (i + |word| == |s| || !IsLetter(s[i + |word|]))
  }

  /** `_profile_label`: the name a profile carries before any number. */
  function BaseLabel(source: string): string {
    match Classify(source)
    case Feeder =>
      var front, back := HasWord(Lower(source), "front"), HasWord(Lower(source), "back");
      if front && !back then "Feeder, front side only"
      else if back && !front then "Feeder, back side only"
      else "Feeder, single-sided"
    case FeederDuplex => "Feeder, double-sided"
    case Flatbed => "Glass (flatbed)"
    case AutoSource => "Automatic"
    case UnknownSource => "Scanner source"
  }

  lemma BaseLabelsEndInNoDigit(source: string)
    ensures BaseLabel(source) != [] && !IsDigit(BaseLabel(source)[|BaseLabel(source)| - 1])
  {
  }

  /** The base label of each source, in the device's order. */
  function Bases(sources: seq<string>): (bases: seq<string>)
    ensures |bases| == |sources| && forall i :: 0 <= i < |sources| ==> bases[i] == BaseLabel(sources[i])
  {
    seq(|sources|, i requires 0 <= i < |sources| => BaseLabel(sources[i]))
  }

  /** How many of these base labels are this one. */
  function Holders(bases: seq<string>, base: string): nat {
    if bases == [] then 0
    else Holders(bases[..|bases| - 1], base) + if bases[|bases| - 1] == base then 1 else 0
  }

  lemma {:induction false} HoldersGrow(bases: seq<string>, i: nat, j: nat, base: string)
    requires i <= j <= |bases|
    ensures Holders(bases[..i], base) <= Holders(bases[..j], base)
  {
    if i < j {
      HoldersGrow(bases, i, j - 1, base);
      assert bases[..j][..j - 1] == bases[..j - 1];
    }
  }

  function Numbered(base: string, ordinal: nat): string {
    if ordinal == 1 then base else base + " " + Decimal(ordinal)
  }

  /** The label of the j-th source: numbered from the second holder of its base on. */
  function LabelOf(bases: seq<string>, j: nat): string
    requires j < |bases|
  {
    Numbered(bases[j], Holders(bases[..j + 1], bases[j]))
  }

  predicate EndsInNoDigit(s: string) {
    s != [] && !IsDigit(s[|s| - 1])
  }

  /** Two different numbered labels never read alike. */
  lemma NumberedDiffer(a: string, n: nat, b: string, m: nat)
    requires a != [] && !IsDigit(a[|a| - 1]) && b != [] && !IsDigit(b[|b| - 1])
    requires Numbered(a, n) == Numbered(b, m)
    ensures a == b && n == m
  {
    PaddedReadsBack(n, 1);
    PaddedReadsBack(m, 1);
    var left, right := Numbered(a, n), Numbered(b, m);
    if n != 1 {
      assert left[|left| - 1] == Decimal(n)[|Decimal(n)| - 1] && Decimal(n)[|Decimal(n)| - 1] in Decimal(n);
    }
    if m != 1 {
      assert right[|right| - 1] == Decimal(m)[|Decimal(m)| - 1] && Decimal(m)[|Decimal(m)| - 1] in Decimal(m);
    }
    if n != 1 && m != 1 {
      NumberedApart(a + " ", n, b + " ", m);
      assert a == (a + " ")[..|a + " "| - 1] == (b + " ")[..|b + " "| - 1] == b;
    }
  }

  /** No two sources of one device are offered under one label. */
  lemma LabelsDiffer(bases: seq<string>, i: nat, j: nat)
    requires i < j < |bases| && EndsInNoDigit(bases[i]) && EndsInNoDigit(bases[j])
    ensures LabelOf(bases, i) != LabelOf(bases, j)
  {
    HoldersGrow(bases, i + 1, j, bases[i]);
    assert bases[..j + 1][..j] == bases[..j];
    if LabelOf(bases, i) == LabelOf(bases, j) {
      NumberedDiffer(bases[i], Holders(bases[..i + 1], bases[i]), bases[j], Holders(bases[..j + 1], bases[j]));
    }
  }

  /** `_auto_source_mode`: an Auto source is sheet-fed only where nothing says there is a platen. */
  function ModeFor(source: string, hasPlaten: bool): AutoSourceMode {
    if Classify(source) == AutoSource && !hasPlaten then AsAdf else AsFlatbed
  }

  /** What one source's profile holds. */
  function ProfileFor(source: string, labelText: string, resolution: int, mode: string, hasPlaten: bool,
                      describe: (string, AutoSourceMode) -> string): Generated
  {
    var routing := ModeFor(source, hasPlaten);
    Generated(Profile(labelText, describe(source, routing), source, resolution, mode, routing,
                      if Classify(source) == FeederDuplex then HardwareDuplex else NoDuplex, true, map[]), true)
  }

  /** The profiles of all the sources, in the device's order. */
  function AllProfiles(sources: seq<string>, resolution: int, mode: string, hasPlaten: bool,
                       describe: (string, AutoSourceMode) -> string): (all: seq<Generated>)
    ensures |all| == |sources|
  {
    seq(|sources|, j requires 0 <= j < |sources| =>
      ProfileFor(sources[j], LabelOf(Bases(sources), j), resolution, mode, hasPlaten, describe))
  }

  lemma ProfileAt(sources: seq<string>, resolution: int, mode: string, hasPlaten: bool,
                  describe: (string, AutoSourceMode) -> string, j: nat)
    requires j < |sources|
    ensures AllProfiles(sources, resolution, mode, hasPlaten, describe)[j]
         == ProfileFor(sources[j], LabelOf(Bases(sources), j), resolution, mode, hasPlaten, describe)
  {
  }

  lemma ProfilesAreSound(sources: seq<string>, resolution: int, mode: string, hasPlaten: bool,
                         describe: (string, AutoSourceMode) -> string)
    requires 1 <= resolution <= 12800
    ensures AllSound(AllProfiles(sources, resolution, mode, hasPlaten, describe))
  {
  }

  ghost predicate AllSound(all: seq<Generated>) {
    forall j :: 0 <= j < |all| ==> Sound(all[j])
  }

  /** Where the default source is: the first flatbed, and otherwise the first source. */
  function DefaultOf(sources: seq<string>): (j: nat)
    requires sources != []
    ensures j < |sources|
  {
    var j := FirstFlatbed(sources, 0);
    if j == |sources| then 0 else j
  }

  function FirstFlatbed(sources: seq<string>, from: nat): (j: nat)
    requires from <= |sources|
    ensures from <= j <= |sources|
    decreases |sources| - from
  {
    if from == |sources| || Classify(sources[from]) == Flatbed then from else FirstFlatbed(sources, from + 1)
  }

  lemma {:induction false} FirstFlatbedIs(sources: seq<string>, from: nat)
    requires from <= |sources|
    decreases |sources| - from
    ensures var j := FirstFlatbed(sources, from);
            && (j < |sources| ==> Classify(sources[j]) == Flatbed)
            && forall i :: from <= i < j ==> Classify(sources[i]) != Flatbed
  {
    if from < |sources| && Classify(sources[from]) != Flatbed {
      FirstFlatbedIs(sources, from + 1);
    }
  }

  /** The default is a flatbed whenever the device reports one, and the first it reports. */
  lemma DefaultIsFlatbed(sources: seq<string>, i: nat)
    requires i < |sources| && Classify(sources[i]) == Flatbed
    ensures Classify(sources[DefaultOf(sources)]) == Flatbed && DefaultOf(sources) <= i
  {
    FirstFlatbedIs(sources, 0);
  }

  /** The profiles stand under distinct names, none of them `default`. */
  ghost predicate NamedApart(slugs: seq<string>, profiles: map<string, Generated>, all: seq<Generated>) {
    && |slugs| == |all|
    && (forall i, j :: 0 <= i < j < |slugs| ==> slugs[i] != slugs[j])
    && (forall i :: 0 <= i < |slugs| ==> slugs[i] != "default" && slugs[i] in profiles && profiles[slugs[i]] == all[i])
  }

  predicate HasPlaten(sources: seq<string>, declaresPlaten: bool) {
    declaresPlaten || exists s | s in sources :: Classify(s) == Flatbed
  }

  const NoSourceLabel: string := "Standard scan"

  /**
   * `generate_profiles`.  Every source gets one profile under a name of its own, `default` is a
   * copy of the flatbed's or else the first source's, and no other name is generated.  A
   * resolution the model refuses fails the generation.
   */
  method GenerateProfiles(sources: seq<string>, resolution: int, mode: string, declaresPlaten: bool,
                          describe: (string, AutoSourceMode) -> string, noSourceDescription: string)
    returns (r: Option<map<string, Generated>>, ghost slugs: seq<string>)
    ensures r.Some? <==> 1 <= resolution <= 12800
    ensures r.Some? ==>
              var all := AllProfiles(sources, resolution, mode, HasPlaten(sources, declaresPlaten), describe);
              && NamedApart(slugs, r.value, all)
              && r.value.Keys == Names(slugs) + {"default"}
              && (sources != [] ==> r.value["default"] == r.value[slugs[DefaultOf(sources)]])
              && (sources == [] ==> !r.value["default"].namesSource && r.value["default"].profile.labelText == NoSourceLabel)
    ensures r.Some? ==> SoundSet(r.value)
  {
    slugs := [];
    if !(1 <= resolution <= 12800) {
      return None, slugs;
    }
    var hasPlaten := HasPlaten(sources, declaresPlaten);
    ghost var all := AllProfiles(sources, resolution, mode, hasPlaten, describe);
    var profiles, defaultSlug;
    profiles, defaultSlug, slugs := ProfileEach(sources, resolution, mode, hasPlaten, describe);
    ProfilesAreSound(sources, resolution, mode, hasPlaten, describe);
    NamedSound(slugs, profiles, all);
    assert forall j :: 0 <= j < |slugs| ==> slugs[j] in profiles;
    var standIn: Generated;
    if defaultSlug.None? {
      var bare := Profile(NoSourceLabel, noSourceDescription, DefaultSource, resolution, mode, AsFlatbed, NoDuplex, true, map[]);
      standIn := Generated(bare, false);
    } else {
      standIn := profiles[defaultSlug.value];
    }
    WithDefault(slugs, profiles, all, standIn);
    return Some(profiles["default" := standIn]), slugs;
  }

  /** The loop over the device's sources: one profile each, under a name nobody has claimed. */
  method ProfileEach(sources: seq<string>, resolution: int, mode: string, hasPlaten: bool,
                     describe: (string, AutoSourceMode) -> string)
    returns (profiles: map<string, Generated>, defaultSlug: Option<string>, ghost slugs: seq<string>)
    ensures NamedApart(slugs, profiles, AllProfiles(sources, resolution, mode, hasPlaten, describe))
    ensures profiles.Keys == Names(slugs)
    ensures defaultSlug == if sources == [] then None else Some(slugs[DefaultOf(sources)])
  {
    slugs := [];
    ghost var all := AllProfiles(sources, resolution, mode, hasPlaten, describe);
    ghost var bases := Bases(sources);
    profiles, defaultSlug := map[], None;
    // Reserved up front, so that no source's slug takes it.
    var claimed: set<string> := if sources == [] then {} else {"default"};
    ghost var reserved := claimed;
    assert Names(slugs) == {} && all[..0] == [];
    var holders: map<string, nat> := map[];
    var i := 0;
    while i < |sources|
      invariant i <= |sources| && |slugs| == i
      invariant claimed == reserved + Names(slugs)
      invariant profiles == Paired(slugs, all[..i])
      invariant |Names(slugs)| == i && reserved !! Names(slugs)
      invariant Counted(holders, bases[..i])
      invariant defaultSlug == DefaultAmong(sources, slugs)
    {
      var slug;
      slug, claimed, holders, profiles :=
        NextProfile(sources, i, resolution, mode, hasPlaten, describe, claimed, holders, profiles, slugs, reserved);
      defaultSlug := NoteDefault(sources, i, slug, defaultSlug, slugs);
      slugs := slugs + [slug];
      i := i + 1;
    }
    assert all[..i] == all;
    PairedApart(slugs, all);
  }

  /** One turn of the loop: a name nobody has claimed, a label, and the profile under it. */
  method NextProfile(sources: seq<string>, i: nat, resolution: int, mode: string, hasPlaten: bool,
                     describe: (string, AutoSourceMode) -> string, claimed: set<string>, holders: map<string, nat>,
                     profiles: map<string, Generated>, ghost slugs: seq<string>, ghost reserved: set<string>)
    returns (slug: string, nowClaimed: set<string>, counted: map<string, nat>, after: map<string, Generated>)
    requires |slugs| == i < |sources|
    requires claimed == reserved + Names(slugs) && |Names(slugs)| == i && reserved !! Names(slugs)
    requires Counted(holders, Bases(sources)[..i])
    requires profiles == Paired(slugs, AllProfiles(sources, resolution, mode, hasPlaten, describe)[..i])
    ensures nowClaimed == reserved + Names(slugs + [slug])
    ensures |Names(slugs + [slug])| == i + 1 && reserved !! Names(slugs + [slug])
    ensures Counted(counted, Bases(sources)[..i + 1])
    ensures after == Paired(slugs + [slug], AllProfiles(sources, resolution, mode, hasPlaten, describe)[..i + 1])
  {
    slug, nowClaimed := Claim(sources[i], claimed, slugs, reserved);
    var labelText;
    labelText, counted := NextLabel(sources[i], holders, Bases(sources), i);
    after := AddProfile(sources, i, labelText, resolution, mode, hasPlaten, describe, profiles, slug, slugs);
  }

  /** The name of the profile that `default` copies, once it is among the names given so far. */
  ghost function DefaultAmong(sources: seq<string>, slugs: seq<string>): Option<string> {
    if sources == [] || |slugs| <= DefaultOf(sources) then None else Some(slugs[DefaultOf(sources)])
  }

  /** The first source that goes by the default's name names the profile `default` copies. */
  method NoteDefault(sources: seq<string>, i: nat, slug: string, known: Option<string>, ghost slugs: seq<string>)
    returns (defaultSlug: Option<string>)
    requires |slugs| == i < |sources|
    requires known == DefaultAmong(sources, slugs)
    ensures defaultSlug == DefaultAmong(sources, slugs + [slug])
  {
    defaultSlug := known;
    if known.None? && sources[i] == sources[DefaultOf(sources)] {
      FirstOfItsName(sources, i);
      defaultSlug := Some(slug);
    }
  }

  /** Put the next source's profile under its name. */
  method AddProfile(sources: seq<string>, i: nat, labelText: string, resolution: int, mode: string, hasPlaten: bool,
                    describe: (string, AutoSourceMode) -> string, profiles: map<string, Generated>, slug: string,
                    ghost slugs: seq<string>)
    returns (after: map<string, Generated>)
    requires |slugs| == i < |sources| && slug !in Names(slugs) && labelText == LabelOf(Bases(sources), i)
    requires profiles == Paired(slugs, AllProfiles(sources, resolution, mode, hasPlaten, describe)[..i])
    ensures after == Paired(slugs + [slug], AllProfiles(sources, resolution, mode, hasPlaten, describe)[..i + 1])
    ensures |Names(slugs + [slug])| == |Names(slugs)| + 1 && Names(slugs + [slug]) == Names(slugs) + {slug}
  {
    var generated := MakeProfile(sources[i], labelText, resolution, mode, hasPlaten, describe);
    ProfileAt(sources, resolution, mode, hasPlaten, describe, i);
    PairedOneMore(slugs, AllProfiles(sources, resolution, mode, hasPlaten, describe), i, slug);
    after := profiles[slug := generated];
  }

  /** Claim a name for the source: new among the names so far, and not a reserved one. */
  method Claim(source: string, claimed: set<string>, ghost slugs: seq<string>, ghost reserved: set<string>)
    returns (slug: string, after: set<string>)
    requires claimed == reserved + Names(slugs)
    ensures slug !in reserved && slug !in Names(slugs)
    ensures after == reserved + Names(slugs + [slug])
  {
    var name, _ := ClaimSlug(source, claimed);
    slug, after := name, claimed + {name};
    assert (slugs + [slug])[..|slugs|] == slugs;
  }

  /** Each profile under its name. */
  ghost function Paired(slugs: seq<string>, values: seq<Generated>): map<string, Generated>
    requires |slugs| == |values|
  {
    if slugs == [] then map[]
    else
      var last := |slugs| - 1;
      Paired(slugs[..last], values[..last])[slugs[last] := values[last]]
  }

  lemma PairedOneMore(slugs: seq<string>, all: seq<Generated>, i: nat, slug: string)
    requires |slugs| == i < |all| && slug !in Names(slugs)
    ensures Paired(slugs + [slug], all[..i + 1]) == Paired(slugs, all[..i])[slug := all[i]]
    ensures Names(slugs + [slug]) == Names(slugs) + {slug}
    ensures |Names(slugs + [slug])| == |Names(slugs)| + 1
  {
    assert (slugs + [slug])[..i] == slugs && all[..i + 1][..i] == all[..i];
  }

  lemma {:induction false} NamesBound(slugs: seq<string>)
    ensures |Names(slugs)| <= |slugs|
  {
    if slugs != [] {
      NamesBound(slugs[..|slugs| - 1]);
    }
  }

  /** As many names as sources: no name comes twice. */
  lemma {:induction false} NamesDiffer(slugs: seq<string>, i: nat, j: nat)
    requires |Names(slugs)| == |slugs| && i < j < |slugs|
    ensures slugs[i] != slugs[j]
  {
    var rest := slugs[..|slugs| - 1];
    NamesBound(rest);
    if j == |slugs| - 1 {
      NamesHold(rest, i);
    } else {
      NamesDiffer(rest, i, j);
    }
  }

  lemma {:induction false} PairedAt(slugs: seq<string>, values: seq<Generated>, i: nat)
    requires |slugs| == |values| == |Names(slugs)| && i < |slugs|
    ensures slugs[i] in Paired(slugs, values) && Paired(slugs, values)[slugs[i]] == values[i]
  {
    var last := |slugs| - 1;
    NamesBound(slugs[..last]);
    if i < last {
      PairedAt(slugs[..last], values[..last], i);
      NamesDiffer(slugs, i, last);
    }
  }

  lemma {:induction false} PairedKeys(slugs: seq<string>, values: seq<Generated>)
    requires |slugs| == |values|
    ensures Paired(slugs, values).Keys == Names(slugs)
  {
    if slugs != [] {
      PairedKeys(slugs[..|slugs| - 1], values[..|slugs| - 1]);
    }
  }

  /** Each profile stands under a name of its own. */
  lemma PairedApart(slugs: seq<string>, values: seq<Generated>)
    requires |slugs| == |values| == |Names(slugs)| && (slugs != [] ==> "default" !in Names(slugs))
    ensures NamedApart(slugs, Paired(slugs, values), values)
    ensures Paired(slugs, values).Keys == Names(slugs)
  {
    PairedKeys(slugs, values);
    forall i, j | 0 <= i < j < |slugs| ensures slugs[i] != slugs[j] {
      NamesDiffer(slugs, i, j);
    }
    forall i | 0 <= i < |slugs|
      ensures slugs[i] != "default" && slugs[i] in Paired(slugs, values) && Paired(slugs, values)[slugs[i]] == values[i]
    {
      NamesHold(slugs, i);
      PairedAt(slugs, values, i);
    }
  }

  /** The label of the next source, numbered by how many hold its base already. */
  method NextLabel(source: string, holders: map<string, nat>, ghost bases: seq<string>, ghost i: nat)
    returns (labelText: string, counted: map<string, nat>)
    requires i < |bases| && bases[i] == BaseLabel(source) && Counted(holders, bases[..i])
    ensures labelText == LabelOf(bases, i) && Counted(counted, bases[..i + 1])
  {
    var base := BaseLabel(source);
    var ordinal := (if base in holders then holders[base] else 0) + 1;
    CountedOneMore(holders, bases, i);
    return Numbered(base, ordinal), holders[base := ordinal];
  }

  function Names(slugs: seq<string>): set<string> {
    if slugs == [] then {} else Names(slugs[..|slugs| - 1]) + {slugs[|slugs| - 1]}
  }

  lemma {:induction false} NamesHold(slugs: seq<string>, i: nat)
    requires i < |slugs|
    ensures slugs[i] in Names(slugs)
  {
    if i < |slugs| - 1 {
      NamesHold(slugs[..|slugs| - 1], i);
    }
  }

  lemma {:induction false} NamesOnly(slugs: seq<string>, name: string) returns (i: nat)
    requires name in Names(slugs)
    ensures i < |slugs| && slugs[i] == name
  {
    if name == slugs[|slugs| - 1] {
      i := |slugs| - 1;
    } else {
      i := NamesOnly(slugs[..|slugs| - 1], name);
    }
  }

  /** The default source is the first that goes by its name. */
  lemma FirstOfItsName(sources: seq<string>, i: nat)
    requires i < |sources| && i <= DefaultOf(sources) && sources[i] == sources[DefaultOf(sources)]
    ensures i == DefaultOf(sources)
  {
    FirstFlatbedIs(sources, 0);
  }

  ghost predicate SoundSet(profiles: map<string, Generated>) {
    forall name | name in profiles :: Sound(profiles[name])
  }

  lemma WithDefault(slugs: seq<string>, profiles: map<string, Generated>, all: seq<Generated>, standIn: Generated)
    requires NamedApart(slugs, profiles, all) && profiles.Keys == Names(slugs) && Sound(standIn)
    requires SoundSet(profiles)
    ensures NamedApart(slugs, profiles["default" := standIn], all)
    ensures profiles["default" := standIn].Keys == Names(slugs) + {"default"}
    ensures SoundSet(profiles["default" := standIn])
  {
  }

  lemma NamedSound(slugs: seq<string>, profiles: map<string, Generated>, all: seq<Generated>)
    requires NamedApart(slugs, profiles, all) && profiles.Keys == Names(slugs) && AllSound(all)
    ensures SoundSet(profiles)
    ensures "default" !in profiles
  {
    forall name | name in profiles ensures Sound(profiles[name]) {
      var k := NamesOnly(slugs, name);
      assert profiles[slugs[k]] == all[k];
    }
    if "default" in Names(slugs) {
      var k := NamesOnly(slugs, "default");
    }
  }

  method MakeProfile(source: string, labelText: string, resolution: int, mode: string, hasPlaten: bool,
                     describe: (string, AutoSourceMode) -> string) returns (generated: Generated)
    ensures generated == ProfileFor(source, labelText, resolution, mode, hasPlaten, describe)
  {
    var routing := ModeFor(source, hasPlaten);
    var duplex := if Classify(source) == FeederDuplex then HardwareDuplex else NoDuplex;
    generated := Generated(Profile(labelText, describe(source, routing), source, resolution, mode, routing, duplex, true, map[]), true);
  }

  /** The counts are those of the base labels so far. */
  ghost predicate Counted(holders: map<string, nat>, bases: seq<string>) {
    forall base :: (if base in holders then holders[base] else 0) == Holders(bases, base)
  }

  lemma CountedOneMore(holders: map<string, nat>, bases: seq<string>, i: nat)
    requires i < |bases| && Counted(holders, bases[..i])
    ensures var base := bases[i];
            var ordinal := (if base in holders then holders[base] else 0) + 1;
            && ordinal == Holders(bases[..i + 1], base)
            && Counted(holders[base := ordinal], bases[..i + 1])
  {
    assert bases[..i + 1][..i] == bases[..i];
  }

  /** Over the whole set: no two sources share a label. */
  lemma GeneratedLabelsDiffer(sources: seq<string>, resolution: int, mode: string, hasPlaten: bool,
                              describe: (string, AutoSourceMode) -> string, i: nat, j: nat)
    requires i < j < |sources|
    ensures var all := AllProfiles(sources, resolution, mode, hasPlaten, describe);
            all[i].profile.labelText != all[j].profile.labelText
  {
    BaseLabelsEndInNoDigit(sources[i]);
    BaseLabelsEndInNoDigit(sources[j]);
    LabelsDiffer(Bases(sources), i, j);
  }
}
