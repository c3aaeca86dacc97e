/** Keeping the most finished artefact a failed run produced, whatever fails on the way. */
module Preservation {
  import opened Outcomes
  import opened FileSystem
  import opened SpoolNames
  import opened Pages

  datatype RunStage = Acquiring | Filtering | Assembling | Delivering | Delivered

  /** How a PDF reached paperless-ngx, or may have. */
  datatype How = AcceptedAsTask | SavedToConsumeFolder | MayHaveArrived | SentWithoutAnswer

  /** One acquisition pass: the name its PDF is kept under and its pages, in scan order. */
  datatype Pass = Pass(part: Part, records: seq<PageRecord>)

  datatype Kind = AssembledPdfs | Document | Passes | PageFiles

  /** One kind of artefact that reached `failed/`; `outOf` is set when some of it did not. */
  datatype KeptGroup = KeptGroup(kind: Kind, paths: seq<Path>, count: nat, outOf: Option<nat>)

  datatype Problem = MovingAssembled | KeepingDocument | KeepingPasses | MovingPageFiles

  datatype Caution =
    | CheckFile(kept: Path, how: How)
    | CheckPages(pdf: Path, how: How)
    | CannotPair(sheets: nat)
    | BacksStartAt(frontsPage: nat, backs: nat, fronts: nat)

  const MAX_NAME_ATTEMPTS: nat := 100

  class RunArtefacts {
    var stage: RunStage
    var passes: seq<Pass>
    /** Every accepted page in document order; empty while there is no document. */
    var document: seq<PageRecord>
    var pdfs: seq<Path>
    var accepted: map<Path, How>
    var unreadableSheets: nat

    constructor ()
      ensures stage == Acquiring && passes == [] && document == [] && pdfs == []
      ensures accepted == map[] && unreadableSheets == 0
    {
      stage, passes, document, pdfs, accepted, unreadableSheets := Acquiring, [], [], [], map[], 0;
    }
  }

  class PreservationReport {
    var groups: seq<KeptGroup>
    var problems: seq<Problem>
    var cautions: seq<Caution>

    constructor ()
      ensures groups == [] && problems == [] && cautions == []
    {
      groups, problems, cautions := [], [], [];
    }
  }

  /** A name in `failed/` is free for a PDF. */
  ghost predicate NameFree(files: FileMap, part: Part) {
    exists a: nat | 1 <= a <= MAX_NAME_ATTEMPTS :: FailedPdf(part, a) !in files
  }

  /** The file is the first free name of the PDF, new there, and holds these pages. */
  ghost predicate KeptAs(before: FileMap, after: FileMap, kept: Path, part: Part, pages: seq<Image>) {
    && kept.FailedPdf?
    && kept.part == part
    && 1 <= kept.attempt <= MAX_NAME_ATTEMPTS
    && kept !in before
    && kept in after
    && after[kept] == pages
  }

  lemma KeepFileFrame(files: FileMap, pdf: Path, dest: Path)
    requires pdf.AssembledPdf? || pdf.PreservedPdf?
    requires IsKept(dest)
    ensures SpoolPart(files[dest := []]) == SpoolPart(files)
    ensures AssembledPart(files[dest := []]) == AssembledPart(files)
    ensures pdf in files ==> SpoolPart(files[dest := files[pdf]]) == SpoolPart(files[dest := files[pdf]] - {pdf}) == SpoolPart(files)
    ensures pdf in files ==> AssembledPart(files[dest := files[pdf]]) == AssembledPart(files)
    ensures pdf in files && pdf.PreservedPdf? ==> AssembledPart(files[dest := files[pdf]] - {pdf}) == AssembledPart(files)
  {
  }

  /** Every image in a file under `failed/`. */
  ghost function FailedImages(files: FileMap): set<Image> {
    set p, i | p in files && IsKept(p) && i in files[p] :: i
  }

  /** Every image in one of these PDFs, where they exist. */
  ghost function ImagesOf(pdfs: seq<Path>, files: FileMap): set<Image> {
    set p, i | p in pdfs && p in files && i in files[p] :: i
  }

  lemma MovingAddsItsOwn(files: FileMap, pdf: Path, dest: Path)
    requires IsKept(dest)
    ensures FailedImages(files[dest := []]) <= FailedImages(files)
    ensures pdf in files ==> FailedImages(files[dest := files[pdf]]) <= FailedImages(files) + ImagesOf([pdf], files)
    ensures pdf in files ==> FailedImages(files[dest := files[pdf]] - {pdf}) <= FailedImages(files) + ImagesOf([pdf], files)
  {
    assert pdf in [pdf];
  }

  /**
   * `_keep_file`: move one PDF into `failed/` under the first numbered name nothing holds.
   */
  method KeepFile(disk: Disk, pdf: Path) returns (r: Option<Path>)
    requires pdf.AssembledPdf? || pdf.PreservedPdf?
    modifies disk
    ensures OnlyThatPdf(old(disk.files), disk.files, pdf)
    ensures pdf.PreservedPdf? ==> AssembledPart(disk.files) == AssembledPart(old(disk.files))
    ensures r.Some? ==> pdf in old(disk.files) && KeptAs(old(disk.files), disk.files, r.value, pdf.part, old(disk.files)[pdf])
    ensures FailedImages(disk.files) <= FailedImages(old(disk.files)) + ImagesOf([pdf], old(disk.files))
    ensures r.Some? ==> forall a: nat | 1 <= a < r.value.attempt :: FailedPdf(pdf.part, a) in old(disk.files)
    ensures r.None? ==> (pdf in disk.files <==> pdf in old(disk.files)) && (pdf in disk.files ==> disk.files[pdf] == old(disk.files)[pdf])
    ensures disk.faults >= old(disk.faults)
    ensures r.None? ==> disk.faults > old(disk.faults) || pdf !in old(disk.files) || !NameFree(old(disk.files), pdf.part)
  {
    var chmodRefused := disk.Refuses();
    if chmodRefused {
      return None;
    }
    var attempt: nat := 1;
    while attempt <= MAX_NAME_ATTEMPTS
      invariant 1 <= attempt <= MAX_NAME_ATTEMPTS + 1
      invariant disk.files == old(disk.files) && disk.faults >= old(disk.faults)
      invariant forall a: nat | 1 <= a < attempt :: FailedPdf(pdf.part, a) in disk.files
    {
      var dest := FailedPdf(pdf.part, attempt);
      KeepFileFrame(disk.files, pdf, dest);
      MovingAddsItsOwn(disk.files, pdf, dest);
      var move := disk.MovePrivate(pdf, dest);
      if move.Moved? {
        return Some(dest);
      } else if move.Refused? {
        return None;
      }
      attempt := attempt + 1;
    }
    return None;
  }

  /** The PDFs of a delivery that are still on disk, in order. */
  function Existing(pdfs: seq<Path>, files: FileMap): (r: seq<Path>)
    ensures forall p :: p in r <==> p in pdfs && p in files
    ensures |r| <= |pdfs|
  {
    if pdfs == [] then []
    else (if pdfs[0] in files then [pdfs[0]] else []) + Existing(pdfs[1..], files)
  }

  /** Some assembled PDF of the delivery is on disk. */
  predicate AnyExists(pdfs: seq<Path>, files: FileMap) {
    exists p | p in pdfs :: p in files
  }

  ghost predicate Distinct<T>(s: seq<T>) {
    forall i, j :: 0 <= i < j < |s| ==> s[i] != s[j]
  }

  lemma {:induction false} ExistingDistinct(pdfs: seq<Path>, files: FileMap)
    requires Distinct(pdfs)
    ensures Distinct(Existing(pdfs, files))
  {
    if pdfs != [] {
      ExistingDistinct(pdfs[1..], files);
    }
  }

  /** One caution for each kept PDF that paperless-ngx took or may have taken, naming the kept file. */
  function FileCautions(pdfs: seq<Path>, kept: seq<Path>, accepted: map<Path, How>): seq<Caution>
    requires |kept| <= |pdfs|
  {
    if kept == [] then []
    else
      var last := |kept| - 1;
      FileCautions(pdfs, kept[..last], accepted)
      + (if pdfs[last] in accepted then [CheckFile(kept[last], accepted[pdfs[last]])] else [])
  }

  /** One caution for each taken PDF that was not kept, whose pages are kept instead. */
  function PageCautions(pdfs: seq<Path>, accepted: map<Path, How>): seq<Caution> {
    if pdfs == [] then []
    else
      (if pdfs[0] in accepted then [CheckPages(pdfs[0], accepted[pdfs[0]])] else [])
      + PageCautions(pdfs[1..], accepted)
  }

  /** The cautions about PDFs paperless-ngx took or may have taken, given how many were kept. */
  function DeliveryCautions(pdfs: seq<Path>, kept: seq<Path>, accepted: map<Path, How>): seq<Caution>
    requires |kept| <= |pdfs|
  {
    FileCautions(pdfs, kept, accepted) + PageCautions(pdfs[|kept|..], accepted)
  }

  function Incomplete(kept: nat, total: nat): Option<nat> {
    if kept < total then Some(total) else None
  }

  /** The first PDFs, one for each kept file, are in `failed/` and hold what they held. */
  ghost predicate AllKept(before: FileMap, after: FileMap, pdfs: seq<Path>, kept: seq<Path>)
    requires forall p | p in pdfs :: p in before && p.AssembledPdf?
  {
    && |kept| <= |pdfs|
    && Distinct(kept)
    && forall i :: 0 <= i < |kept| ==> KeptAs(before, after, kept[i], pdfs[i].part, before[pdfs[i]])
  }

  /** Every numbered name of some PDF is taken. */
  ghost predicate SomeNameless(files: FileMap, pdfs: seq<Path>)
    requires forall p | p in pdfs :: p.AssembledPdf?
  {
    exists p | p in pdfs :: !NameFree(files, p.part)
  }

  /** Nothing else moved while one PDF was being kept. */
  ghost predicate OnlyThatPdf(before: FileMap, after: FileMap, pdf: Path) {
    && KeptStays(before, after)
    && SpoolPart(after) == SpoolPart(before)
    && forall p | p in before && p != pdf :: p in after && after[p] == before[p]
  }

  /** The loop of `_keep_assembled`: the first PDFs are kept and the others are where they were. */
  ghost predicate KeptSoFar(before: FileMap, after: FileMap, pdfs: seq<Path>, kept: seq<Path>)
    requires forall p | p in pdfs :: p in before && p.AssembledPdf?
  {
    && KeptStays(before, after)
    && SpoolPart(after) == SpoolPart(before)
    && AllKept(before, after, pdfs, kept)
    && forall i :: |kept| <= i < |pdfs| ==> pdfs[i] in after && after[pdfs[i]] == before[pdfs[i]]
  }

  lemma KeptOne(before: FileMap, mid: FileMap, after: FileMap, pdfs: seq<Path>, kept: seq<Path>, dest: Path)
    requires forall p | p in pdfs :: p in before && p.AssembledPdf?
    requires Distinct(pdfs) && |kept| < |pdfs|
    requires KeptSoFar(before, mid, pdfs, kept)
    requires OnlyThatPdf(mid, after, pdfs[|kept|])
    requires KeptAs(mid, after, dest, pdfs[|kept|].part, mid[pdfs[|kept|]])
    ensures KeptSoFar(before, after, pdfs, kept + [dest])
  {
    assert dest in before ==> dest in mid;
    forall i | 0 <= i < |kept| ensures KeptAs(before, after, kept[i], pdfs[i].part, before[pdfs[i]]) && kept[i] != dest {
      assert KeptAs(before, mid, kept[i], pdfs[i].part, before[pdfs[i]]);
    }
    assert Distinct(kept + [dest]);
  }

  /** The loop of `_keep_assembled`: move the PDFs one by one until one cannot be kept. */
  method KeepEach(disk: Disk, pdfs: seq<Path>, accepted: map<Path, How>, report: PreservationReport)
    returns (kept: seq<Path>)
    requires Distinct(pdfs) && forall p | p in pdfs :: p.AssembledPdf? && p in disk.files
    requires report.cautions == []
    modifies disk, report`cautions
    ensures KeptStays(old(disk.files), disk.files)
    ensures SpoolPart(disk.files) == SpoolPart(old(disk.files))
    ensures AllKept(old(disk.files), disk.files, pdfs, kept)
    ensures FailedImages(disk.files) <= FailedImages(old(disk.files)) + ImagesOf(pdfs, old(disk.files))
    ensures report.cautions == FileCautions(pdfs, kept, accepted)
    ensures disk.faults >= old(disk.faults)
    ensures |kept| < |pdfs| && disk.faults == old(disk.faults) ==> SomeNameless(disk.files, pdfs)
  {
    kept := [];
    while |kept| < |pdfs|
      invariant KeptSoFar(old(disk.files), disk.files, pdfs, kept)
      invariant FailedImages(disk.files) <= FailedImages(old(disk.files)) + ImagesOf(pdfs, old(disk.files))
      invariant report.cautions == FileCautions(pdfs, kept, accepted)
      invariant disk.faults >= old(disk.faults)
    {
      var pdf := pdfs[|kept|];
      ghost var mid := disk.files;
      var destination := KeepFile(disk, pdf);
      assert ImagesOf([pdf], mid) <= ImagesOf(pdfs, old(disk.files));
      if destination.None? {
        assert !NameFree(mid, pdf.part) ==> !NameFree(disk.files, pdf.part);
        NotKept(old(disk.files), mid, disk.files, pdfs, kept);
        return;
      }
      KeptOne(old(disk.files), mid, disk.files, pdfs, kept, destination.value);
      assert (kept + [destination.value])[..|kept|] == kept;
      kept := kept + [destination.value];
      if pdf in accepted {
        report.cautions := report.cautions + [CheckFile(destination.value, accepted[pdf])];
      }
    }
  }

  lemma NotKept(before: FileMap, mid: FileMap, after: FileMap, pdfs: seq<Path>, kept: seq<Path>)
    requires forall p | p in pdfs :: p in before && p.AssembledPdf?
    requires KeptSoFar(before, mid, pdfs, kept)
    requires KeptStays(mid, after) && SpoolPart(after) == SpoolPart(mid)
    ensures KeptStays(before, after) && AllKept(before, after, pdfs, kept)
  {
    forall i | 0 <= i < |kept| ensures KeptAs(before, after, kept[i], pdfs[i].part, before[pdfs[i]]) {
      assert KeptAs(before, mid, kept[i], pdfs[i].part, before[pdfs[i]]);
    }
  }

  /** The caution of each taken PDF that could not be kept as one. */
  method CautionPages(pdfs: seq<Path>, accepted: map<Path, How>, report: PreservationReport)
    modifies report`cautions
    ensures report.cautions == old(report.cautions) + PageCautions(pdfs, accepted)
  {
    var rest := pdfs;
    while rest != []
      invariant report.cautions + PageCautions(rest, accepted)
             == old(report.cautions) + PageCautions(pdfs, accepted)
      decreases |rest|
    {
      if rest[0] in accepted {
        report.cautions := report.cautions + [CheckPages(rest[0], accepted[rest[0]])];
      }
      rest := rest[1..];
    }
  }

  method MoveAssembled(disk: Disk, pdfs: seq<Path>, accepted: map<Path, How>, report: PreservationReport)
    returns (kept: seq<Path>)
    requires pdfs != [] && Distinct(pdfs) && forall p | p in pdfs :: p.AssembledPdf? && p in disk.files
    requires report.cautions == []
    modifies disk, report`cautions, report`problems
    ensures KeptStays(old(disk.files), disk.files) && SpoolPart(disk.files) == SpoolPart(old(disk.files))
    ensures FailedImages(disk.files) <= FailedImages(old(disk.files)) + ImagesOf(pdfs, old(disk.files))
    ensures AllKept(old(disk.files), disk.files, pdfs, kept)
    ensures report.cautions == DeliveryCautions(pdfs, kept, accepted)
    ensures report.problems == old(report.problems) + if |kept| == |pdfs| then [] else [MovingAssembled]
    ensures disk.faults >= old(disk.faults)
    ensures |kept| < |pdfs| && disk.faults == old(disk.faults) ==> SomeNameless(disk.files, pdfs)
  {
    kept := [];
    var made := disk.MakeDirectory();
    if made {
      kept := KeepEach(disk, pdfs, accepted, report);
    }
    if |kept| < |pdfs| {
      report.problems := report.problems + [MovingAssembled];
    }
    CautionPages(pdfs[|kept|..], accepted, report);
  }

  function AssembledGroups(kept: seq<Path>, total: nat): seq<KeptGroup> {
    if kept == [] then [] else [KeptGroup(AssembledPdfs, kept, |kept|, Incomplete(|kept|, total))]
  }

  /** `_keep_assembled`: move the assembled PDFs of an unfinished delivery into `failed/`. */
  method KeepAssembled(disk: Disk, artefacts: RunArtefacts, report: PreservationReport)
    returns (all: bool, ghost pdfs: seq<Path>, ghost kept: seq<Path>)
    requires Distinct(artefacts.pdfs) && forall p | p in artefacts.pdfs :: p.AssembledPdf?
    requires AnyExists(artefacts.pdfs, disk.files) && report.cautions == []
    modifies disk, report
    ensures pdfs == Existing(artefacts.pdfs, old(disk.files))
    ensures KeptStays(old(disk.files), disk.files) && SpoolPart(disk.files) == SpoolPart(old(disk.files))
    ensures FailedImages(disk.files) <= FailedImages(old(disk.files)) + ImagesOf(artefacts.pdfs, old(disk.files))
    ensures AllKept(old(disk.files), disk.files, pdfs, kept)
    ensures all <==> |kept| == |pdfs|
    ensures report.cautions == DeliveryCautions(pdfs, kept, artefacts.accepted)
    ensures report.groups == old(report.groups) + AssembledGroups(kept, |pdfs|)
    ensures report.problems == old(report.problems) + if all then [] else [MovingAssembled]
    ensures disk.faults >= old(disk.faults)
    ensures !all && disk.faults == old(disk.faults) ==> SomeNameless(disk.files, pdfs)
  {
    var existing := Existing(artefacts.pdfs, disk.files);
    ExistingDistinct(artefacts.pdfs, disk.files);
    assert ImagesOf(existing, disk.files) == ImagesOf(artefacts.pdfs, disk.files);
    var moved := MoveAssembled(disk, existing, artefacts.accepted, report);
    report.groups := report.groups + AssembledGroups(moved, |existing|);
    all, pdfs, kept := |moved| == |existing|, existing, moved;
  }

  /** Every page file of these records is on disk. */
  ghost predicate OnDisk(records: seq<PageRecord>, files: FileMap) {
    forall p | p in PathsOf(records) :: p in files
  }

  /** What a PDF of these records holds. */
  ghost function PagesOf(records: seq<PageRecord>, files: FileMap): seq<Image>
    requires OnDisk(records, files)
  {
    Images(files, PathsOf(records))
  }

  /** Every record names a file of the spool. */
  ghost predicate Spooled(records: seq<PageRecord>) {
    forall r | r in records :: r.path.SpoolFile?
  }

  lemma SpoolDecides(records: seq<PageRecord>, before: FileMap, after: FileMap)
    requires Spooled(records) && SpoolPart(before) == SpoolPart(after)
    ensures OnDisk(records, before) <==> OnDisk(records, after)
    ensures OnDisk(records, before) ==> PagesOf(records, before) == PagesOf(records, after)
  {
    forall p | p in PathsOf(records) ensures p in SpoolPart(before) <==> p in before {
    }
    forall p | p in PathsOf(records) ensures p in SpoolPart(after) <==> p in after {
    }
    if OnDisk(records, before) {
      forall p | p in PathsOf(records) ensures p in before && p in after && after[p] == before[p] {
        assert p in SpoolPart(before) && before[p] == SpoolPart(before)[p] == SpoolPart(after)[p];
      }
      ImagesFrame(before, after, PathsOf(records));
    }
  }

  /**
   * Build one PDF of these records in the workspace and keep it in `failed/`; a PDF built but
   * not kept is deleted, because it is only a copy.
   */
  method BuildAndKeep(disk: Disk, records: seq<PageRecord>, part: Part) returns (r: Option<Path>)
    requires Spooled(records)
    modifies disk
    ensures KeptStays(old(disk.files), disk.files)
    ensures SpoolPart(disk.files) == SpoolPart(old(disk.files))
    ensures AssembledPart(disk.files) == AssembledPart(old(disk.files))
    ensures r.Some? ==> records != [] && OnDisk(records, old(disk.files))
                        && KeptAs(old(disk.files), disk.files, r.value, part, PagesOf(records, old(disk.files)))
    ensures disk.faults >= old(disk.faults)
    ensures r.None? && disk.faults == old(disk.faults) ==>
              records == [] || !OnDisk(records, old(disk.files)) || !NameFree(old(disk.files), part)
  {
    r := None;
    var pdf := PreservedPdf(part);
    var built := disk.AssemblePdf(PathsOf(records), pdf);
    if built {
      PartsFrame(old(disk.files), pdf, disk.files[pdf]);
      assert NameFree(old(disk.files), part) ==> NameFree(disk.files, part);
      var made := disk.MakeDirectory();
      if made {
        r := KeepFile(disk, pdf);
      }
      if r.None? {
        PartsFrame(disk.files, pdf, []);
        var _ := disk.Unlink(pdf);
      }
    }
  }

  /** `_keep_document`: keep the unfiltered document as one PDF. */
  method KeepDocument(disk: Disk, artefacts: RunArtefacts, report: PreservationReport)
    returns (kept: Option<Path>)
    requires Spooled(artefacts.document)
    modifies disk, report
    ensures KeptStays(old(disk.files), disk.files)
    ensures SpoolPart(disk.files) == SpoolPart(old(disk.files))
    ensures kept.Some? ==> artefacts.document != [] && OnDisk(artefacts.document, old(disk.files))
                           && KeptAs(old(disk.files), disk.files, kept.value, WholePart, PagesOf(artefacts.document, old(disk.files)))
    ensures report.groups == old(report.groups)
              + if kept.Some? then [KeptGroup(Document, [kept.value], |artefacts.document|, None)] else []
    ensures report.problems == old(report.problems) + if kept.Some? then [] else [KeepingDocument]
    ensures report.cautions == old(report.cautions)
    ensures disk.faults >= old(disk.faults)
    ensures kept.None? && disk.faults == old(disk.faults) ==>
              artefacts.document == [] || !OnDisk(artefacts.document, old(disk.files)) || !NameFree(old(disk.files), WholePart)
  {
    kept := BuildAndKeep(disk, artefacts.document, WholePart);
    if kept.None? {
      report.problems := report.problems + [KeepingDocument];
    } else {
      report.groups := report.groups + [KeptGroup(Document, [kept.value], |artefacts.document|, None)];
    }
  }

  /** The passes that put a page on the spool. */
  function NonEmpty(passes: seq<Pass>): (r: seq<Pass>)
    ensures forall p :: p in r <==> p in passes && p.records != []
    ensures |r| <= |passes|
  {
    if passes == [] then []
    else (if passes[0].records != [] then [passes[0]] else []) + NonEmpty(passes[1..])
  }

  /** The pages of a pass in sheet order: pass B fed the flipped stack, last sheet first. */
  function SheetOrder(pass: Pass): (records: seq<PageRecord>)
    ensures |records| == |pass.records|
    ensures forall r :: r in records <==> r in pass.records
  {
    if pass.part == BacksPart then
      var reversed := Reversed(pass.records);
      assert forall i :: 0 <= i < |pass.records| ==> pass.records[i] == reversed[|reversed| - 1 - i];
      reversed
    else pass.records
  }

  function PageCount(passes: seq<Pass>): nat {
    if passes == [] then 0 else PageCount(passes[..|passes| - 1]) + |passes[|passes| - 1].records|
  }

  ghost predicate PassesSpooled(passes: seq<Pass>) {
    forall p | p in passes :: Spooled(p.records)
  }

  /** The first passes, one for each kept file, are in `failed/` as PDFs in sheet order. */
  ghost predicate PassesKept(before: FileMap, after: FileMap, passes: seq<Pass>, kept: seq<Path>) {
    && |kept| <= |passes|
    && forall i :: 0 <= i < |kept| ==>
         && OnDisk(SheetOrder(passes[i]), before)
         && KeptAs(before, after, kept[i], passes[i].part, PagesOf(SheetOrder(passes[i]), before))
  }

  /** A pass no PDF can be kept of though nothing is refused: no page, a lost page, or no name. */
  ghost predicate Unkeepable(pass: Pass, before: FileMap, after: FileMap) {
    pass.records == [] || !OnDisk(SheetOrder(pass), before) || !NameFree(after, pass.part)
  }

  /** The loop of `_keep_passes`: one PDF per pass, until one cannot be built or kept. */
  method KeepEachPass(disk: Disk, passes: seq<Pass>) returns (kept: seq<Path>)
    requires PassesSpooled(passes)
    modifies disk
    ensures KeptStays(old(disk.files), disk.files)
    ensures SpoolPart(disk.files) == SpoolPart(old(disk.files))
    ensures PassesKept(old(disk.files), disk.files, passes, kept)
    ensures disk.faults >= old(disk.faults)
    ensures |kept| < |passes| && disk.faults == old(disk.faults) ==>
              exists p | p in passes :: Unkeepable(p, old(disk.files), disk.files)
  {
    kept := [];
    while |kept| < |passes|
      invariant KeptStays(old(disk.files), disk.files)
      invariant SpoolPart(disk.files) == SpoolPart(old(disk.files))
      invariant PassesKept(old(disk.files), disk.files, passes, kept)
      invariant disk.faults >= old(disk.faults)
    {
      var pass := passes[|kept|];
      var ordered := SheetOrder(pass);
      SpoolDecides(ordered, old(disk.files), disk.files);
      ghost var before := disk.files;
      var path := BuildAndKeep(disk, ordered, pass.part);
      if path.None? {
        assert !NameFree(before, pass.part) ==> !NameFree(disk.files, pass.part);
        assert disk.faults == old(disk.faults) ==> Unkeepable(pass, old(disk.files), disk.files);
        return;
      }
      kept := kept + [path.value];
    }
  }

  /** `_pairing_caution`: how the kept backs pair with the fronts, when that must be said. */
  function PairingCaution(fronts: nat, backs: nat, unreadable: nat): seq<Caution> {
    if backs == 0 then []
    else if unreadable > 0 then [CannotPair(unreadable)]
    else if backs >= fronts then []
    else [BacksStartAt(fronts - backs + 1, backs, fronts)]
  }

  /** How many pages the first pass kept under this name has. */
  function CountOf(passes: seq<Pass>, part: Part): nat {
    if passes == [] then 0
    else if passes[0].part == part then |passes[0].records|
    else CountOf(passes[1..], part)
  }

  function PassGroups(passes: seq<Pass>, kept: seq<Path>): seq<KeptGroup>
    requires |kept| <= |passes|
  {
    if kept == [] then []
    else
      var pages := PageCount(passes[..|kept|]);
      [KeptGroup(Passes, kept, pages, Incomplete(pages, PageCount(passes)))]
  }

  /** `_keep_passes`: keep each non-empty pass as its own PDF, the backs in sheet order. */
  method KeepPasses(disk: Disk, artefacts: RunArtefacts, report: PreservationReport)
    returns (complete: bool, ghost kept: seq<Path>)
    requires PassesSpooled(artefacts.passes)
    modifies disk, report
    ensures KeptStays(old(disk.files), disk.files)
    ensures SpoolPart(disk.files) == SpoolPart(old(disk.files))
    ensures PassesKept(old(disk.files), disk.files, NonEmpty(artefacts.passes), kept)
    ensures complete ==> |kept| == |NonEmpty(artefacts.passes)|
    ensures report.groups == old(report.groups) + PassGroups(NonEmpty(artefacts.passes), kept)
    ensures report.problems == old(report.problems) + if complete then [] else [KeepingPasses]
    ensures var passes := NonEmpty(artefacts.passes);
            report.cautions == old(report.cautions)
              + if complete then PairingCaution(CountOf(passes, FrontsPart), CountOf(passes, BacksPart), artefacts.unreadableSheets) else []
    ensures disk.faults >= old(disk.faults)
    ensures !complete && disk.faults == old(disk.faults) ==>
              exists p | p in NonEmpty(artefacts.passes) :: Unkeepable(p, old(disk.files), disk.files)
  {
    var passes := NonEmpty(artefacts.passes);
    var paths: seq<Path> := [];
    var made := disk.MakeDirectory();
    if made {
      paths := KeepEachPass(disk, passes);
    }
    complete, kept := made && |paths| == |passes|, paths;
    NotePasses(passes, paths, complete, artefacts.unreadableSheets, report);
  }

  /** What the report says of the passes that were kept, and of those that were not. */
  method NotePasses(passes: seq<Pass>, paths: seq<Path>, complete: bool, unreadable: nat, report: PreservationReport)
    requires |paths| <= |passes|
    modifies report
    ensures report.groups == old(report.groups) + PassGroups(passes, paths)
    ensures report.problems == old(report.problems) + if complete then [] else [KeepingPasses]
    ensures report.cautions == old(report.cautions)
              + if complete then PairingCaution(CountOf(passes, FrontsPart), CountOf(passes, BacksPart), unreadable) else []
  {
    if !complete {
      report.problems := report.problems + [KeepingPasses];
    } else {
      report.cautions := report.cautions + PairingCaution(CountOf(passes, FrontsPart), CountOf(passes, BacksPart), unreadable);
    }
    report.groups := report.groups + PassGroups(passes, paths);
  }

  /** Each moved file is under `failed/` and holds what the spool file of its name held. */
  ghost predicate PagesMoved(before: FileMap, after: FileMap, moved: seq<Path>) {
    forall p | p in moved :: p.FailedPage? && PageMoved(before, after, p.entry)
  }

  ghost predicate PageMoved(before: FileMap, after: FileMap, e: Entry) {
    && SpoolFile(e) in before
    && FailedPage(e) in after
    && after[FailedPage(e)] == before[SpoolFile(e)]
  }

  /** Every spooled file is still in the spool or under `failed/`, whole. */
  ghost predicate NoPageLost(before: FileMap, after: FileMap) {
    forall e | SpoolFile(e) in before ::
      (SpoolFile(e) in after && after[SpoolFile(e)] == before[SpoolFile(e)]) || PageMoved(before, after, e)
  }

  ghost predicate AllPagesMoved(before: FileMap, after: FileMap) {
    forall e | SpoolFile(e) in before :: PageMoved(before, after, e)
  }

  /** A page file under `failed/` already holds the name of a spooled one. */
  ghost predicate PageNameTaken(files: FileMap) {
    exists e | SpoolFile(e) in files :: FailedPage(e) in files
  }

  ghost predicate SpoolLeft(before: FileMap, after: FileMap, e: Entry) {
    && SpoolFile(e) in before
    && SpoolFile(e) in after
    && after[SpoolFile(e)] == before[SpoolFile(e)]
  }

  /** All files but the one being moved are as they were, but for its place under `failed/`. */
  ghost predicate OnlyMoved(before: FileMap, after: FileMap, e: Entry) {
    && (forall p {:trigger p in before} | p in before && p != SpoolFile(e) :: p in after && after[p] == before[p])
    && (forall p {:trigger p in after} | p in after && p != FailedPage(e) :: p in before && after[p] == before[p])
  }

  /** One page of `move_page_files`: owner-only first, and then moved. */
  method MovePage(disk: Disk, e: Entry) returns (moved: bool)
    requires SpoolFile(e) in disk.files
    modifies disk
    ensures OnlyMoved(old(disk.files), disk.files, e)
    ensures moved ==> PageMoved(old(disk.files), disk.files, e) && FailedPage(e) !in old(disk.files)
    ensures !moved ==> SpoolLeft(old(disk.files), disk.files, e)
    ensures disk.faults >= old(disk.faults)
    ensures !moved && disk.faults == old(disk.faults) ==> FailedPage(e) in old(disk.files)
  {
    var chmodRefused := disk.Refuses();
    if chmodRefused {
      return false;
    }
    var move := disk.MovePrivate(SpoolFile(e), FailedPage(e));
    return move.Moved?;
  }

  /**
   * The loop of `move_page_files`: the files listed first have moved, and the others are
   * where they were.
   */
  ghost predicate MovedSoFar(before: FileMap, after: FileMap, listing: seq<Entry>, count: nat)
    requires count <= |listing|
  {
    && (forall p {:trigger p in before} | p in before && !p.SpoolFile? :: p in after && after[p] == before[p])
    && (forall p {:trigger p in after} | p in after && !p.FailedPage? :: p in before && after[p] == before[p])
    && (forall i :: 0 <= i < count ==> PageMoved(before, after, listing[i]))
    && (forall i :: count <= i < |listing| ==> SpoolLeft(before, after, listing[i]))
  }

  lemma MovedOne(before: FileMap, mid: FileMap, after: FileMap, listing: seq<Entry>, count: nat)
    requires IsListing(before, listing) && count < |listing|
    requires MovedSoFar(before, mid, listing, count) && OnlyMoved(mid, after, listing[count])
    requires PageMoved(mid, after, listing[count])
    ensures MovedSoFar(before, after, listing, count + 1)
  {
    assert SpoolLeft(before, mid, listing[count]);
    forall i | count + 1 <= i < |listing| ensures SpoolLeft(before, after, listing[i]) {
      assert SpoolLeft(before, mid, listing[i]);
    }
    forall i | 0 <= i < count ensures PageMoved(before, after, listing[i]) {
      assert PageMoved(before, mid, listing[i]);
    }
    forall p | p in after && !p.FailedPage? ensures p in before && after[p] == before[p] {
      assert p in mid;
    }
  }

  /**
   * `move_page_files`: move every spooled file, in name order, until one cannot be moved.
   * The files moved before that stay moved and stay named.
   */
  method MovePageFiles(disk: Disk) returns (raised: bool, moved: seq<Path>)
    modifies disk
    ensures KeptStays(old(disk.files), disk.files)
    ensures AssembledPart(disk.files) == AssembledPart(old(disk.files))
    ensures NoPageLost(old(disk.files), disk.files) && PagesMoved(old(disk.files), disk.files, moved)
    ensures !raised ==> |moved| == |SpoolPart(old(disk.files))| && AllPagesMoved(old(disk.files), disk.files)
    ensures moved != [] && |moved| == |SpoolPart(old(disk.files))| ==> AllPagesMoved(old(disk.files), disk.files)
    ensures |moved| <= |SpoolPart(old(disk.files))|
    ensures disk.faults >= old(disk.faults)
    ensures raised && disk.faults == old(disk.faults) ==> PageNameTaken(old(disk.files))
  {
    moved := [];
    var listed := disk.ListSpool();
    if listed.None? {
      return true, moved;
    }
    var listing := listed.value;
    ListingCounts(disk.files, listing);
    if listing != [] {
      var above := disk.MakeDirectory();
      if !above {
        return true, moved;
      }
      var made := disk.MakeDirectory();
      if !made {
        return true, moved;
      }
      raised, moved := MoveListed(disk, listing);
    } else {
      raised := false;
    }
  }

  method MoveListed(disk: Disk, listing: seq<Entry>) returns (raised: bool, moved: seq<Path>)
    requires IsListing(disk.files, listing)
    modifies disk
    ensures KeptStays(old(disk.files), disk.files)
    ensures AssembledPart(disk.files) == AssembledPart(old(disk.files))
    ensures NoPageLost(old(disk.files), disk.files) && PagesMoved(old(disk.files), disk.files, moved)
    ensures |moved| <= |listing|
    ensures !raised ==> |moved| == |listing|
    ensures |moved| == |listing| ==> AllPagesMoved(old(disk.files), disk.files)
    ensures disk.faults >= old(disk.faults)
    ensures raised && disk.faults == old(disk.faults) ==> PageNameTaken(old(disk.files))
  {
    raised, moved := false, [];
    while !raised && |moved| < |listing|
      invariant |moved| <= |listing|
      invariant forall i :: 0 <= i < |moved| ==> moved[i] == FailedPage(listing[i])
      invariant MovedSoFar(old(disk.files), disk.files, listing, |moved|)
      invariant !raised ==> forall i :: |moved| <= i < |listing| && FailedPage(listing[i]) in disk.files ==>
                  FailedPage(listing[i]) in old(disk.files)
      invariant disk.faults >= old(disk.faults)
      invariant raised && disk.faults == old(disk.faults) ==> PageNameTaken(old(disk.files))
      decreases |listing| - |moved|, !raised
    {
      var e := listing[|moved|];
      ghost var mid := disk.files;
      assert SpoolLeft(old(disk.files), mid, e);
      var ok := MovePage(disk, e);
      if ok {
        MovedOne(old(disk.files), mid, disk.files, listing, |moved|);
        moved := moved + [FailedPage(e)];
      } else {
        NotMoved(old(disk.files), mid, disk.files, listing, |moved|);
        raised := true;
      }
    }
    MovedMeans(old(disk.files), disk.files, listing, |moved|);
  }

  lemma NotMoved(before: FileMap, mid: FileMap, after: FileMap, listing: seq<Entry>, count: nat)
    requires IsListing(before, listing) && count < |listing|
    requires MovedSoFar(before, mid, listing, count) && OnlyMoved(mid, after, listing[count])
    requires SpoolLeft(mid, after, listing[count])
    ensures MovedSoFar(before, after, listing, count)
  {
    forall i | count <= i < |listing| ensures SpoolLeft(before, after, listing[i]) {
      assert SpoolLeft(before, mid, listing[i]);
    }
    forall i | 0 <= i < count ensures PageMoved(before, after, listing[i]) {
      assert PageMoved(before, mid, listing[i]);
    }
    forall p | p in after && !p.FailedPage? ensures p in before && after[p] == before[p] {
      assert p in mid;
    }
  }

  lemma MovedMeans(before: FileMap, after: FileMap, listing: seq<Entry>, count: nat)
    requires IsListing(before, listing) && count <= |listing|
    requires MovedSoFar(before, after, listing, count)
    ensures KeptStays(before, after) && AssembledPart(before) == AssembledPart(after)
    ensures NoPageLost(before, after)
    ensures count == |listing| ==> AllPagesMoved(before, after)
    ensures forall i :: 0 <= i < count ==> PageMoved(before, after, listing[i])
  {
    forall e | SpoolFile(e) in before
      ensures SpoolLeft(before, after, e) || PageMoved(before, after, e)
    {
      var i :| 0 <= i < |listing| && listing[i] == e;
      if i < count {
        assert PageMoved(before, after, listing[i]);
      } else {
        assert SpoolLeft(before, after, listing[i]);
      }
    }
  }

  function PageGroups(moved: seq<Path>, total: nat): seq<KeptGroup> {
    if moved == [] then []
    else if |moved| < total then [KeptGroup(PageFiles, moved, |moved|, Some(total))]
    else [KeptGroup(PageFiles, [FailedDirectory], total, None)]
  }

  /** `_keep_page_files`: keep the spooled files themselves, the last resort. */
  method KeepPageFiles(disk: Disk, report: PreservationReport) returns (ghost moved: seq<Path>)
    modifies disk, report
    ensures KeptStays(old(disk.files), disk.files)
    ensures AssembledPart(disk.files) == AssembledPart(old(disk.files))
    ensures NoPageLost(old(disk.files), disk.files) && PagesMoved(old(disk.files), disk.files, moved)
    ensures |moved| <= |SpoolPart(old(disk.files))|
    ensures report.groups == old(report.groups) + PageGroups(moved, |SpoolPart(old(disk.files))|)
    ensures report.cautions == old(report.cautions)
    ensures report.problems == old(report.problems) || report.problems == old(report.problems) + [MovingPageFiles]
    ensures report.problems == old(report.problems) ==>
              |moved| == |SpoolPart(old(disk.files))| && AllPagesMoved(old(disk.files), disk.files)
    ensures moved != [] && |moved| == |SpoolPart(old(disk.files))| ==> AllPagesMoved(old(disk.files), disk.files)
    ensures disk.faults >= old(disk.faults)
    ensures disk.faults == old(disk.faults) && !PageNameTaken(old(disk.files)) ==> report.problems == old(report.problems)
  {
    var spooled := disk.SpoolIsDirectory();
    if !spooled {
      assert forall e :: SpoolFile(e) in disk.files ==> SpoolFile(e) in SpoolPart(disk.files);
      return [];
    }
    var counted := disk.ListSpool();
    if counted.None? {
      report.problems := report.problems + [MovingPageFiles];
      return [];
    }
    var total := |counted.value|;
    ListingCounts(disk.files, counted.value);
    var raised, movedHere := MovePageFiles(disk);
    if raised {
      report.problems := report.problems + [MovingPageFiles];
    }
    report.groups := report.groups + PageGroups(movedHere, total);
    moved := movedHere;
  }

  lemma PageFilesKeep(before: FileMap, after: FileMap, image: Image)
    requires NoPageLost(before, after) && InSpool(before, image)
    ensures InFailed(after, image) || InSpool(after, image)
    ensures AllPagesMoved(before, after) ==> InFailed(after, image)
  {
    var p :| p in SpoolPart(before) && image in before[p];
    var e := p.entry;
    assert SpoolFile(e) in before;
    if PageMoved(before, after, e) {
      assert FailedPage(e) in after && IsKept(FailedPage(e)) && image in after[FailedPage(e)];
    } else {
      assert p in SpoolPart(after);
    }
  }

  /** The image is on the page of one of these records. */
  ghost predicate OnPages(records: seq<PageRecord>, files: FileMap, image: Image) {
    exists r | r in records :: r.path in files && image in files[r.path]
  }

  ghost predicate OnPasses(passes: seq<Pass>, files: FileMap, image: Image) {
    exists p | p in passes :: OnPages(p.records, files, image)
  }

  ghost predicate OnPdfs(pdfs: seq<Path>, files: FileMap, image: Image) {
    exists p | p in pdfs :: p in files && image in files[p]
  }

  predicate AnyPages(passes: seq<Pass>) {
    exists p | p in passes :: p.records != []
  }

  /** What the run has, as the guard reads it when it starts to preserve. */
  datatype Found = Found(stage: RunStage, document: seq<PageRecord>, passes: seq<Pass>, pdfs: seq<Path>)

  ghost function Finds(artefacts: RunArtefacts): Found
    reads artefacts
  {
    Found(artefacts.stage, artefacts.document, artefacts.passes, artefacts.pdfs)
  }

  /** The image is part of the most finished artefact a run found like this has. */
  ghost predicate MostFinished(found: Found, files: FileMap, image: Image) {
    if found.stage == Delivered then false
    else if found.stage == Delivering && AnyExists(found.pdfs, files) then OnPdfs(found.pdfs, files, image)
    else if found.stage == Assembling then InSpool(files, image)
    else if found.stage == Acquiring && found.document != [] then
      OnPages(found.document, files, image) || OnPasses(found.passes, files, image)
    else if found.document != [] then OnPages(found.document, files, image)
    else if AnyPages(found.passes) then OnPasses(found.passes, files, image)
    else InSpool(files, image)
  }

  /** What a preservation keeps when nothing is refused, most finished first. */
  function Kinds(found: Found, files: FileMap, spooled: bool): seq<Kind> {
    if found.stage == Delivered then []
    else if found.stage == Delivering && AnyExists(found.pdfs, files) then [AssembledPdfs]
    else if found.stage == Assembling then if spooled then [PageFiles] else []
    else if found.stage == Acquiring && found.document != [] then
      [Document] + if AnyPages(found.passes) then [Passes] else []
    else if found.document != [] then [Document]
    else if AnyPages(found.passes) then [Passes]
    else if spooled then [PageFiles] else []
  }

  /** A group of a report says what is really under `failed/`. */
  ghost predicate Truthful(group: KeptGroup, found: Found, before: FileMap, after: FileMap) {
    match group.kind
    case AssembledPdfs =>
      var pdfs := Existing(found.pdfs, before);
      && (forall p | p in pdfs :: p.AssembledPdf?)
      && AllKept(before, after, pdfs, group.paths)
      && group.count == |group.paths|
      && group.outOf == Incomplete(|group.paths|, |pdfs|)
    case Document =>
      && |group.paths| == 1
      && OnDisk(found.document, before)
      && KeptAs(before, after, group.paths[0], WholePart, PagesOf(found.document, before))
      && group.count == |found.document|
      && group.outOf == None
    case Passes =>
      var passes := NonEmpty(found.passes);
      && PassesKept(before, after, passes, group.paths)
      && group.count == PageCount(passes[..|group.paths|])
      && group.outOf == Incomplete(group.count, PageCount(passes))
    case PageFiles =>
      if group.outOf.Some? then
        && PagesMoved(before, after, group.paths)
        && group.count == |group.paths| < group.outOf.value == |SpoolPart(before)|
      else
        && group.paths == [FailedDirectory]
        && group.count == |SpoolPart(before)|
        && AllPagesMoved(before, after)
  }

  lemma DocumentKeeps(records: seq<PageRecord>, before: FileMap, after: FileMap, kept: Path, part: Part, image: Image)
    requires OnDisk(records, before) && KeptAs(before, after, kept, part, PagesOf(records, before))
    requires OnPages(records, before, image)
    ensures InFailed(after, image)
  {
    var r :| r in records && r.path in before && image in before[r.path];
    var i :| 0 <= i < |records| && records[i] == r;
    assert PathsOf(records)[i] == r.path;
    ImagesHold(before, PathsOf(records), r.path, image);
  }

  lemma PassesKeep(passes: seq<Pass>, before: FileMap, after: FileMap, kept: seq<Path>, image: Image)
    requires PassesKept(before, after, NonEmpty(passes), kept) && |kept| == |NonEmpty(passes)|
    requires OnPasses(passes, before, image)
    ensures InFailed(after, image)
  {
    var p :| p in passes && OnPages(p.records, before, image);
    assert p in NonEmpty(passes);
    var i :| 0 <= i < |kept| && NonEmpty(passes)[i] == p;
    assert OnPages(SheetOrder(p), before, image);
    DocumentKeeps(SheetOrder(p), before, after, kept[i], p.part, image);
  }

  lemma AssembledKeeps(found: Found, before: FileMap, after: FileMap, kept: seq<Path>, image: Image)
    requires forall p | p in found.pdfs :: p.AssembledPdf?
    requires AllKept(before, after, Existing(found.pdfs, before), kept) && |kept| == |Existing(found.pdfs, before)|
    requires OnPdfs(found.pdfs, before, image)
    ensures InFailed(after, image)
  {
    var p :| p in found.pdfs && p in before && image in before[p];
    var pdfs := Existing(found.pdfs, before);
    var i :| 0 <= i < |pdfs| && pdfs[i] == p;
    assert KeptAs(before, after, kept[i], p.part, before[p]);
  }

  /** A group that tells the truth still does after more has been kept. */
  lemma TruthStays(group: KeptGroup, found: Found, before: FileMap, mid: FileMap, after: FileMap)
    requires group.kind != PageFiles
    requires Truthful(group, found, before, mid) && KeptStays(mid, after)
    ensures Truthful(group, found, before, after)
  {
    match group.kind
    case AssembledPdfs =>
      var pdfs := Existing(found.pdfs, before);
      forall i | 0 <= i < |group.paths|
        ensures KeptAs(before, after, group.paths[i], pdfs[i].part, before[pdfs[i]])
      {
        assert KeptAs(before, mid, group.paths[i], pdfs[i].part, before[pdfs[i]]);
      }
    case Document =>
    case Passes =>
      var passes := NonEmpty(found.passes);
      forall i | 0 <= i < |group.paths|
        ensures KeptAs(before, after, group.paths[i], passes[i].part, PagesOf(SheetOrder(passes[i]), before))
      {
        assert KeptAs(before, mid, group.paths[i], passes[i].part, PagesOf(SheetOrder(passes[i]), before));
      }
    case PageFiles =>
  }

  ghost predicate AllTruthful(groups: seq<KeptGroup>, found: Found, before: FileMap, after: FileMap) {
    forall g | g in groups :: Truthful(g, found, before, after)
  }

  /** Nothing but a refusal can stop anything being kept: names are free and pages are there. */
  ghost predicate Unobstructed(found: Found, before: FileMap, after: FileMap) {
    && (forall part :: NameFree(after, part))
    && OnDisk(found.document, before)
    && (forall p | p in found.passes :: OnDisk(SheetOrder(p), before))
    && !PageNameTaken(before)
  }

  function GroupKinds(groups: seq<KeptGroup>): seq<Kind> {
    seq(|groups|, i requires 0 <= i < |groups| => groups[i].kind)
  }

  lemma SpoolPartDecides(found: Found, before: FileMap, after: FileMap)
    requires SpoolPart(before) == SpoolPart(after) && PassesSpooled(found.passes)
    ensures forall p | p in found.passes :: OnDisk(SheetOrder(p), before) <==> OnDisk(SheetOrder(p), after)
    ensures forall p | p in found.passes && OnDisk(SheetOrder(p), before) ::
              PagesOf(SheetOrder(p), before) == PagesOf(SheetOrder(p), after)
  {
    forall p | p in found.passes
      ensures OnDisk(SheetOrder(p), before) <==> OnDisk(SheetOrder(p), after)
      ensures OnDisk(SheetOrder(p), before) ==> PagesOf(SheetOrder(p), before) == PagesOf(SheetOrder(p), after)
    {
      SpoolDecides(SheetOrder(p), before, after);
    }
  }

  /** The kept passes are those of the files the preservation started from. */
  lemma PassesKeptSince(passes: seq<Pass>, before: FileMap, mid: FileMap, after: FileMap, kept: seq<Path>)
    requires SpoolPart(before) == SpoolPart(mid) && PassesSpooled(passes) && KeptStays(before, mid)
    requires PassesKept(mid, after, passes, kept)
    ensures PassesKept(before, after, passes, kept)
  {
    forall i | 0 <= i < |kept|
      ensures OnDisk(SheetOrder(passes[i]), before)
      ensures KeptAs(before, after, kept[i], passes[i].part, PagesOf(SheetOrder(passes[i]), before))
    {
      PassKeptSince(passes[i], before, mid, after, kept[i]);
    }
  }

  lemma PassKeptSince(pass: Pass, before: FileMap, mid: FileMap, after: FileMap, kept: Path)
    requires SpoolPart(before) == SpoolPart(mid) && Spooled(pass.records) && KeptStays(before, mid)
    requires OnDisk(SheetOrder(pass), mid)
    requires KeptAs(mid, after, kept, pass.part, PagesOf(SheetOrder(pass), mid))
    ensures OnDisk(SheetOrder(pass), before)
    ensures KeptAs(before, after, kept, pass.part, PagesOf(SheetOrder(pass), before))
  {
    SpoolDecides(SheetOrder(pass), before, mid);
    assert kept in before ==> kept in mid;
  }

  lemma PassGroupsTruthful(found: Found, before: FileMap, after: FileMap, kept: seq<Path>)
    requires PassesKept(before, after, NonEmpty(found.passes), kept)
    ensures AllTruthful(PassGroups(NonEmpty(found.passes), kept), found, before, after)
  {
  }

  lemma AllTruthStays(groups: seq<KeptGroup>, found: Found, before: FileMap, mid: FileMap, after: FileMap)
    requires forall g | g in groups :: g.kind != PageFiles
    requires AllTruthful(groups, found, before, mid) && KeptStays(mid, after)
    ensures AllTruthful(groups, found, before, after)
  {
    forall g | g in groups ensures Truthful(g, found, before, after) {
      TruthStays(g, found, before, mid, after);
    }
  }

  lemma NameFreeBefore(before: FileMap, after: FileMap, part: Part)
    requires KeptStays(before, after) && NameFree(after, part)
    ensures NameFree(before, part)
  {
    var a: nat :| 1 <= a <= MAX_NAME_ATTEMPTS && FailedPdf(part, a) !in after;
    assert FailedPdf(part, a) in before ==> FailedPdf(part, a) in after;
  }

  /** The images of every page of the passes, once all of them are kept. */
  lemma AllPassesKeep(passes: seq<Pass>, before: FileMap, after: FileMap, kept: seq<Path>)
    requires PassesKept(before, after, NonEmpty(passes), kept) && |kept| == |NonEmpty(passes)|
    ensures forall image | OnPasses(passes, before, image) :: InFailed(after, image)
  {
    forall image | OnPasses(passes, before, image) ensures InFailed(after, image) {
      PassesKeep(passes, before, after, kept, image);
    }
  }

  lemma WholeDocumentKeeps(records: seq<PageRecord>, before: FileMap, mid: FileMap, after: FileMap, kept: Path)
    requires OnDisk(records, before) && KeptAs(before, mid, kept, WholePart, PagesOf(records, before))
    requires KeptStays(mid, after)
    ensures forall image | OnPages(records, before, image) :: InFailed(after, image)
  {
    forall image | OnPages(records, before, image) ensures InFailed(after, image) {
      DocumentKeeps(records, before, mid, kept, WholePart, image);
      InFailedStays(mid, after, image);
    }
  }

  /** What keeping the passes after something else means for the whole preservation. */
  lemma KeptSince(found: Found, before: FileMap, mid: FileMap, after: FileMap, kept: seq<Path>, groups: seq<KeptGroup>)
    requires SpoolPart(before) == SpoolPart(mid) && PassesSpooled(found.passes)
    requires KeptStays(before, mid) && KeptStays(mid, after)
    requires PassesKept(mid, after, NonEmpty(found.passes), kept)
    requires forall g | g in groups :: g.kind != PageFiles
    requires AllTruthful(groups, found, before, mid)
    ensures AllTruthful(groups + PassGroups(NonEmpty(found.passes), kept), found, before, after)
    ensures forall g | g in groups + PassGroups(NonEmpty(found.passes), kept) :: g.kind != PageFiles
    ensures KeptStays(before, after) && SpoolPart(before) == SpoolPart(mid)
    ensures |kept| == |NonEmpty(found.passes)| ==> forall image | OnPasses(found.passes, before, image) :: InFailed(after, image)
    ensures |kept| == |NonEmpty(found.passes)| && AnyPages(found.passes) ==>
              GroupKinds(groups + PassGroups(NonEmpty(found.passes), kept)) == GroupKinds(groups) + [Passes]
  {
    var more := PassGroups(NonEmpty(found.passes), kept);
    PassesKeptSince(NonEmpty(found.passes), before, mid, after, kept);
    PassGroupsTruthful(found, before, after, kept);
    AllTruthStays(groups, found, before, mid, after);
    GroupsJoin(groups, more, found, before, after);
    KeptInTurn(before, mid, after);
    if |kept| == |NonEmpty(found.passes)| {
      AllPassesKeep(found.passes, before, after, kept);
      if AnyPages(found.passes) {
        SomePassKept(found.passes, kept);
      }
    }
  }

  lemma GroupsJoin(groups: seq<KeptGroup>, more: seq<KeptGroup>, found: Found, before: FileMap, after: FileMap)
    requires AllTruthful(groups, found, before, after) && AllTruthful(more, found, before, after)
    requires forall g | g in groups :: g.kind != PageFiles
    requires forall g | g in more :: g.kind != PageFiles
    ensures AllTruthful(groups + more, found, before, after)
    ensures forall g | g in groups + more :: g.kind != PageFiles
    ensures GroupKinds(groups + more) == GroupKinds(groups) + GroupKinds(more)
  {
  }

  lemma SomePassKept(passes: seq<Pass>, kept: seq<Path>)
    requires |kept| == |NonEmpty(passes)| && AnyPages(passes)
    ensures GroupKinds(PassGroups(NonEmpty(passes), kept)) == [Passes]
  {
    var p :| p in passes && p.records != [];
    assert p in NonEmpty(passes);
  }

  /**
   * The passes in flight, kept after something else: a KeepPasses whose contract speaks of the
   * files the whole preservation started from.
   */
  method KeepPassesSince(disk: Disk, artefacts: RunArtefacts, report: PreservationReport, ghost before: FileMap)
    returns (complete: bool)
    requires PassesSpooled(artefacts.passes)
    requires SpoolPart(before) == SpoolPart(disk.files) && KeptStays(before, disk.files)
    requires forall g | g in report.groups :: g.kind != PageFiles
    requires AllTruthful(report.groups, Finds(artefacts), before, disk.files)
    modifies disk, report
    ensures KeptStays(old(disk.files), disk.files) && SpoolPart(disk.files) == SpoolPart(before)
    ensures AllTruthful(report.groups, Finds(artefacts), before, disk.files)
    ensures report.problems == old(report.problems) + if complete then [] else [KeepingPasses]
    ensures complete ==> forall image | OnPasses(artefacts.passes, before, image) :: InFailed(disk.files, image)
    ensures complete && AnyPages(artefacts.passes) ==> GroupKinds(report.groups) == GroupKinds(old(report.groups)) + [Passes]
    ensures forall g | g in report.groups :: g.kind != PageFiles
    ensures disk.faults >= old(disk.faults)
    ensures disk.faults == old(disk.faults) && Unobstructed(Finds(artefacts), before, disk.files) ==> complete
    ensures report.cautions == old(report.cautions)
              + if complete then PassPairing(artefacts.passes, artefacts.unreadableSheets) else []
  {
    ghost var mid, found, groups := disk.files, Finds(artefacts), report.groups;
    ghost var kept: seq<Path>;
    complete, kept := KeepPasses(disk, artefacts, report);
    KeptSince(found, before, mid, disk.files, kept, groups);
    if Unobstructed(found, before, disk.files) {
      NothingUnkeepable(found, before, mid, disk.files);
    }
  }

  lemma NothingUnkeepable(found: Found, before: FileMap, mid: FileMap, after: FileMap)
    requires SpoolPart(before) == SpoolPart(mid) && PassesSpooled(found.passes) && Unobstructed(found, before, after)
    ensures !exists p | p in NonEmpty(found.passes) :: Unkeepable(p, mid, after)
  {
    SpoolPartDecides(found, before, mid);
  }

  /** What a guard that finds a document or passes promises of the PDFs it keeps. */
  ghost predicate KeptAsPdfs(found: Found, before: FileMap, after: FileMap, groups: seq<KeptGroup>) {
    && KeptStays(before, after)
    && SpoolPart(after) == SpoolPart(before)
    && AllTruthful(groups, found, before, after)
    && (forall g | g in groups :: g.kind != PageFiles)
  }

  /** The first thing a preservation with a document keeps. */
  method KeepDocumentFirst(disk: Disk, artefacts: RunArtefacts, report: PreservationReport) returns (kept: bool)
    requires artefacts.document != [] && Spooled(artefacts.document)
    requires report.groups == [] && report.problems == []
    modifies disk, report
    ensures KeptAsPdfs(Finds(artefacts), old(disk.files), disk.files, report.groups)
    ensures report.problems == if kept then [] else [KeepingDocument]
    ensures report.cautions == old(report.cautions)
    ensures kept ==> forall image | OnPages(artefacts.document, old(disk.files), image) :: InFailed(disk.files, image)
    ensures GroupKinds(report.groups) == if kept then [Document] else []
    ensures disk.faults >= old(disk.faults)
    ensures !kept && disk.faults == old(disk.faults) ==>
              !OnDisk(artefacts.document, old(disk.files)) || !NameFree(old(disk.files), WholePart)
  {
    ghost var before := disk.files;
    var path := KeepDocument(disk, artefacts, report);
    if path.Some? {
      WholeDocumentKeeps(artefacts.document, before, disk.files, disk.files, path.value);
    }
    return path.Some?;
  }

  lemma AllStay(before: FileMap, mid: FileMap, after: FileMap, records: seq<PageRecord>)
    requires KeptStays(mid, after)
    requires forall image | OnPages(records, before, image) :: InFailed(mid, image)
    ensures forall image | OnPages(records, before, image) :: InFailed(after, image)
  {
    forall image | OnPages(records, before, image) ensures InFailed(after, image) {
      InFailedStays(mid, after, image);
    }
  }

  /** `_keep_document_and_passes_in_flight`: both are attempted whatever happens to the other. */
  method KeepDocumentAndPassesInFlight(disk: Disk, artefacts: RunArtefacts, report: PreservationReport)
    returns (all: bool)
    requires artefacts.document != [] && Spooled(artefacts.document) && PassesSpooled(artefacts.passes)
    requires report.groups == [] && report.problems == []
    modifies disk, report
    ensures KeptAsPdfs(Finds(artefacts), old(disk.files), disk.files, report.groups)
    ensures all <==> report.problems == []
    ensures report.cautions == old(report.cautions)
              + if AnyPages(artefacts.passes) && KeepingPasses !in report.problems then PassPairing(artefacts.passes, artefacts.unreadableSheets)
                else []
    ensures all ==> forall image | OnPages(artefacts.document, old(disk.files), image) :: InFailed(disk.files, image)
    ensures all ==> forall image | OnPasses(artefacts.passes, old(disk.files), image) :: InFailed(disk.files, image)
    ensures all ==> GroupKinds(report.groups) == [Document] + (if AnyPages(artefacts.passes) then [Passes] else [])
    ensures disk.faults >= old(disk.faults)
    ensures disk.faults == old(disk.faults) && Unobstructed(Finds(artefacts), old(disk.files), disk.files) ==> all
  {
    ghost var before := disk.files;
    all := KeepDocumentFirst(disk, artefacts, report);
    ghost var mid := disk.files;
    if AnyPages(artefacts.passes) {
      var complete := KeepPassesSince(disk, artefacts, report, before);
      KeptInTurn(before, mid, disk.files);
      all := all && complete;
    }
    if NameFree(disk.files, WholePart) {
      NameFreeBefore(before, disk.files, WholePart);
    }
    if all {
      AllStay(before, mid, disk.files, artefacts.document);
      assert !AnyPages(artefacts.passes) ==> forall image :: !OnPasses(artefacts.passes, before, image);
    }
  }

  lemma KeptInTurn(before: FileMap, mid: FileMap, after: FileMap)
    requires KeptStays(before, mid) && KeptStays(mid, after)
    ensures KeptStays(before, after)
  {
  }

  /** Every image of the most finished artefact is under `failed/`. */
  ghost predicate AllInFailed(found: Found, before: FileMap, after: FileMap) {
    forall image | MostFinished(found, before, image) :: InFailed(after, image)
  }

  /** Whether a guard that has no PDF of a delivery tries to keep the passes as PDFs. */
  ghost predicate TriesPasses(found: Found) {
    && AnyPages(found.passes)
    && found.stage != Assembling && found.stage != Delivered
    && (found.stage == Acquiring || found.document == [])
  }

  /** How the passes pair, once all of them are kept. */
  ghost function PassPairing(passes: seq<Pass>, unreadable: nat): seq<Caution> {
    PairingCaution(CountOf(NonEmpty(passes), FrontsPart), CountOf(NonEmpty(passes), BacksPart), unreadable)
  }

  /** What such a guard says of how the passes pair: what there is to say once all of them are kept. */
  ghost function PairingOf(found: Found, unreadable: nat, problems: seq<Problem>): seq<Caution> {
    if TriesPasses(found) && KeepingPasses !in problems then PassPairing(found.passes, unreadable) else []
  }

  /** What a run must hand the guard: distinct delivery PDFs, and records that name spool files. */
  ghost predicate WellFound(found: Found) {
    && Distinct(found.pdfs)
    && (forall p | p in found.pdfs :: p.AssembledPdf?)
    && Spooled(found.document)
    && PassesSpooled(found.passes)
  }

  predicate KeepsPdfs(found: Found, files: FileMap) {
    found.stage == Delivering && AnyExists(found.pdfs, files)
  }

  /** The delivery's own PDFs, the first thing a preservation with any keeps. */
  method KeepDelivery(disk: Disk, artefacts: RunArtefacts, report: PreservationReport)
    returns (kept: bool, ghost taken: seq<Path>)
    requires WellFound(Finds(artefacts)) && KeepsPdfs(Finds(artefacts), disk.files)
    requires report.groups == [] && report.problems == [] && report.cautions == []
    modifies disk, report
    ensures KeptAsPdfs(Finds(artefacts), old(disk.files), disk.files, report.groups)
    ensures report.problems == if kept then [] else [MovingAssembled]
    ensures kept ==> AllInFailed(Finds(artefacts), old(disk.files), disk.files)
    ensures kept ==> GroupKinds(report.groups) == [AssembledPdfs]
    ensures FailedImages(disk.files) <= FailedImages(old(disk.files)) + ImagesOf(artefacts.pdfs, old(disk.files))
    ensures AllKept(old(disk.files), disk.files, Existing(artefacts.pdfs, old(disk.files)), taken)
    ensures report.cautions == DeliveryCautions(Existing(artefacts.pdfs, old(disk.files)), taken, artefacts.accepted)
    ensures disk.faults >= old(disk.faults)
    ensures disk.faults == old(disk.faults) && Unobstructed(Finds(artefacts), old(disk.files), disk.files) ==> kept
  {
    ghost var before, found := disk.files, Finds(artefacts);
    ghost var pdfs: seq<Path>;
    kept, pdfs, taken := KeepAssembled(disk, artefacts, report);
    if kept {
      forall image | MostFinished(found, before, image) ensures InFailed(disk.files, image) {
        AssembledKeeps(found, before, disk.files, taken, image);
      }
    }
  }

  /** The guard's choice, apart from the page files. */
  method KeepAsPdfs(disk: Disk, artefacts: RunArtefacts, report: PreservationReport)
    returns (kept: bool, ghost taken: seq<Path>)
    requires WellFound(Finds(artefacts)) && artefacts.stage != Delivered
    requires report.groups == [] && report.problems == [] && report.cautions == []
    modifies disk, report
    ensures KeptAsPdfs(Finds(artefacts), old(disk.files), disk.files, report.groups)
    ensures kept ==> report.problems == [] && AllInFailed(Finds(artefacts), old(disk.files), disk.files)
    ensures !kept && report.problems == [] ==> forall image ::
              MostFinished(Finds(artefacts), old(disk.files), image) ==> InSpool(old(disk.files), image)
    ensures kept ==> forall spooled :: GroupKinds(report.groups) == Kinds(Finds(artefacts), old(disk.files), spooled)
    ensures !kept && report.problems == [] ==> report.groups == [] && disk.files == old(disk.files)
    ensures !kept && report.problems == [] ==> Kinds(Finds(artefacts), old(disk.files), true) == [PageFiles]
    ensures !kept && report.problems == [] ==> Kinds(Finds(artefacts), old(disk.files), false) == []
    ensures KeepsPdfs(Finds(artefacts), old(disk.files)) ==>
              && FailedImages(disk.files) <= FailedImages(old(disk.files)) + ImagesOf(artefacts.pdfs, old(disk.files))
              && AllKept(old(disk.files), disk.files, Existing(artefacts.pdfs, old(disk.files)), taken)
              && report.cautions == DeliveryCautions(Existing(artefacts.pdfs, old(disk.files)), taken, artefacts.accepted)
    ensures !KeepsPdfs(Finds(artefacts), old(disk.files)) ==>
              report.cautions == PairingOf(Finds(artefacts), artefacts.unreadableSheets, report.problems)
    ensures disk.faults >= old(disk.faults)
    ensures disk.faults == old(disk.faults) && Unobstructed(Finds(artefacts), old(disk.files), disk.files) ==> report.problems == []
  {
    ghost var before, found := disk.files, Finds(artefacts);
    taken := [];
    if artefacts.stage == Delivering && AnyExists(artefacts.pdfs, disk.files) {
      kept, taken := KeepDelivery(disk, artefacts, report);
    } else if artefacts.stage == Assembling {
      kept := false;
    } else if artefacts.stage == Acquiring && artefacts.document != [] {
      kept := KeepDocumentAndPassesInFlight(disk, artefacts, report);
    } else if artefacts.document != [] {
      kept := KeepDocumentFirst(disk, artefacts, report);
      if NameFree(disk.files, WholePart) {
        NameFreeBefore(before, disk.files, WholePart);
      }
    } else if AnyPages(artefacts.passes) {
      kept := KeepPassesSince(disk, artefacts, report, before);
    } else {
      kept := false;
    }
  }

  /** The page files tell the truth about the spool the preservation started from. */
  lemma PageGroupsTruthful(found: Found, before: FileMap, mid: FileMap, after: FileMap, moved: seq<Path>)
    requires SpoolPart(before) == SpoolPart(mid)
    requires PagesMoved(mid, after, moved) && |moved| <= |SpoolPart(mid)|
    requires moved != [] && |moved| == |SpoolPart(mid)| ==> AllPagesMoved(mid, after)
    ensures AllTruthful(PageGroups(moved, |SpoolPart(mid)|), found, before, after)
  {
    PagesMovedSince(before, mid, after);
    forall p | p in moved ensures PageMoved(before, after, p.entry) {
      assert PageMoved(mid, after, p.entry);
    }
  }

  lemma PagesMovedSince(before: FileMap, mid: FileMap, after: FileMap)
    requires SpoolPart(before) == SpoolPart(mid)
    ensures forall e :: PageMoved(mid, after, e) ==> PageMoved(before, after, e)
    ensures AllPagesMoved(mid, after) ==> AllPagesMoved(before, after)
  {
    forall e | PageMoved(mid, after, e) ensures PageMoved(before, after, e) {
      assert SpoolFile(e) in SpoolPart(mid);
    }
    if AllPagesMoved(mid, after) {
      forall e | SpoolFile(e) in before ensures PageMoved(before, after, e) {
        assert SpoolFile(e) in SpoolPart(before);
        assert SpoolFile(e) in mid;
        assert PageMoved(mid, after, e);
      }
    }
  }

  /** Every image of the most finished artefact is kept, or a problem leaves it in the spool. */
  ghost predicate Conserved(found: Found, before: FileMap, after: FileMap, problems: seq<Problem>) {
    forall image | MostFinished(found, before, image) && InSpool(before, image) ::
      InFailed(after, image) || (InSpool(after, image) && problems != [])
  }

  lemma InSpoolStays(before: FileMap, after: FileMap, image: Image)
    requires SpoolPart(before) == SpoolPart(after)
    ensures InSpool(before, image) <==> InSpool(after, image)
  {
    if InSpool(before, image) {
      var p :| p in SpoolPart(before) && image in before[p];
      assert p in SpoolPart(after) && after[p] == SpoolPart(after)[p] == SpoolPart(before)[p];
    }
    if InSpool(after, image) {
      var p :| p in SpoolPart(after) && image in after[p];
      assert p in SpoolPart(before) && before[p] == SpoolPart(before)[p];
    }
  }

  lemma FallbackConserves(found: Found, before: FileMap, mid: FileMap, after: FileMap, problems: seq<Problem>)
    requires SpoolPart(before) == SpoolPart(mid) && NoPageLost(mid, after)
    requires problems == [] ==> AllPagesMoved(mid, after)
    ensures Conserved(found, before, after, problems)
  {
    forall image | MostFinished(found, before, image) && InSpool(before, image)
      ensures InFailed(after, image) || (InSpool(after, image) && problems != [])
    {
      InSpoolStays(before, mid, image);
      PageFilesKeep(mid, after, image);
    }
  }

  /**
   * `preserve_most_finished`.  Whatever is refused on the way: nothing under `failed/` is ever
   * replaced; every image of the most finished artefact, if the spool has it, ends under
   * `failed/` or is still in the spool with a problem reported; every group reported is really
   * there; and each PDF that was or may have been delivered carries its caution.  When nothing
   * is refused and nothing is in the way, exactly the most finished artefact is kept.
   */
  method PreserveMostFinished(disk: Disk, artefacts: RunArtefacts)
    returns (report: PreservationReport, ghost taken: seq<Path>)
    requires WellFound(Finds(artefacts))
    modifies disk
    ensures fresh(report)
    ensures KeptStays(old(disk.files), disk.files)
    ensures NoPageLost(old(disk.files), disk.files)
    ensures Conserved(Finds(artefacts), old(disk.files), disk.files, report.problems)
    ensures AllTruthful(report.groups, Finds(artefacts), old(disk.files), disk.files)
    ensures artefacts.stage == Delivered ==> disk.files == old(disk.files) && report.groups == [] && report.problems == []
    ensures KeepsPdfs(Finds(artefacts), old(disk.files)) ==>
              && AllKept(old(disk.files), disk.files, Existing(artefacts.pdfs, old(disk.files)), taken)
              && report.cautions == DeliveryCautions(Existing(artefacts.pdfs, old(disk.files)), taken, artefacts.accepted)
    ensures !KeepsPdfs(Finds(artefacts), old(disk.files)) ==>
              report.cautions == PairingOf(Finds(artefacts), artefacts.unreadableSheets, report.problems)
    ensures KeepsPdfs(Finds(artefacts), old(disk.files)) && report.problems == [] ==>
              FailedImages(disk.files) <= FailedImages(old(disk.files)) + ImagesOf(artefacts.pdfs, old(disk.files))
    ensures report.problems == [] ==>
              GroupKinds(report.groups) == Kinds(Finds(artefacts), old(disk.files), |SpoolPart(old(disk.files))| > 0)
    ensures disk.faults == old(disk.faults) && Unobstructed(Finds(artefacts), old(disk.files), disk.files) ==> report.problems == []
  {
    report := new PreservationReport();
    taken := [];
    if artefacts.stage == Delivered {
      return;
    }
    ghost var before, found := disk.files, Finds(artefacts);
    var kept: bool;
    kept, taken := KeepAsPdfs(disk, artefacts, report);
    if !kept {
      ghost var mid, groups := disk.files, report.groups;
      ghost var moved := KeepPageFiles(disk, report);
      FallbackConserves(found, before, mid, disk.files, report.problems);
      NoPageLostSince(before, mid, disk.files);
      PageGroupsTruthful(found, before, mid, disk.files, moved);
      AllTruthStays(groups, found, before, mid, disk.files);
      TakenStay(found, before, mid, disk.files, taken);
      UnobstructedBefore(found, before, mid, disk.files);
    } else {
      NoPageLostSince(before, disk.files, disk.files);
    }
  }

  /** Keeping PDFs moves no page, so what the page files promise holds from the start. */
  lemma NoPageLostSince(before: FileMap, mid: FileMap, after: FileMap)
    requires SpoolPart(before) == SpoolPart(mid) && (mid == after || NoPageLost(mid, after))
    ensures NoPageLost(before, after)
  {
    forall e | SpoolFile(e) in before
      ensures SpoolLeft(before, after, e) || PageMoved(before, after, e)
    {
      assert SpoolFile(e) in SpoolPart(mid) && before[SpoolFile(e)] == SpoolPart(mid)[SpoolFile(e)] == mid[SpoolFile(e)];
    }
  }

  lemma TakenStay(found: Found, before: FileMap, mid: FileMap, after: FileMap, taken: seq<Path>)
    requires KeptStays(mid, after) && forall p | p in Existing(found.pdfs, before) :: p.AssembledPdf?
    ensures AllKept(before, mid, Existing(found.pdfs, before), taken) ==> AllKept(before, after, Existing(found.pdfs, before), taken)
  {
    var pdfs := Existing(found.pdfs, before);
    if AllKept(before, mid, pdfs, taken) {
      forall i | 0 <= i < |taken| ensures KeptAs(before, after, taken[i], pdfs[i].part, before[pdfs[i]]) {
        assert KeptAs(before, mid, taken[i], pdfs[i].part, before[pdfs[i]]);
      }
    }
  }

  lemma UnobstructedBefore(found: Found, before: FileMap, mid: FileMap, after: FileMap)
    requires KeptStays(mid, after)
    ensures Unobstructed(found, before, after) ==> Unobstructed(found, before, mid)
  {
    if Unobstructed(found, before, after) {
      forall part ensures NameFree(mid, part) {
        NameFreeBefore(mid, after, part);
      }
    }
  }

  /** The caution a delivery PDF gets: on its kept copy, or on its pages when it was not kept. */
  function CautionOn(pdfs: seq<Path>, kept: seq<Path>, accepted: map<Path, How>, i: nat): Caution
    requires |kept| <= |pdfs| && i < |pdfs| && pdfs[i] in accepted
  {
    if i < |kept| then CheckFile(kept[i], accepted[pdfs[i]]) else CheckPages(pdfs[i], accepted[pdfs[i]])
  }

  /** How many of the PDFs were, or may have been, taken. */
  function TakenCount(pdfs: seq<Path>, accepted: map<Path, How>): nat {
    if pdfs == [] then 0 else (if pdfs[0] in accepted then 1 else 0) + TakenCount(pdfs[1..], accepted)
  }

  lemma {:induction false} TakenSplit(a: seq<Path>, b: seq<Path>, accepted: map<Path, How>)
    ensures TakenCount(a + b, accepted) == TakenCount(a, accepted) + TakenCount(b, accepted)
  {
    if a == [] {
      assert a + b == b;
    } else {
      assert (a + b)[1..] == a[1..] + b;
      TakenSplit(a[1..], b, accepted);
    }
  }

  lemma {:induction false} FileCautionsCount(pdfs: seq<Path>, kept: seq<Path>, accepted: map<Path, How>)
    requires |kept| <= |pdfs|
    ensures |FileCautions(pdfs, kept, accepted)| == TakenCount(pdfs[..|kept|], accepted)
    ensures forall c | c in FileCautions(pdfs, kept, accepted) :: c.CheckFile? && c.kept in kept
    ensures forall i :: 0 <= i < |kept| && pdfs[i] in accepted ==> CheckFile(kept[i], accepted[pdfs[i]]) in FileCautions(pdfs, kept, accepted)
  {
    if kept != [] {
      var last := |kept| - 1;
      FileCautionsCount(pdfs, kept[..last], accepted);
      assert pdfs[..|kept|] == pdfs[..last] + [pdfs[last]];
      TakenSplit(pdfs[..last], [pdfs[last]], accepted);
    }
  }

  lemma {:induction false} PageCautionsCount(pdfs: seq<Path>, accepted: map<Path, How>)
    ensures |PageCautions(pdfs, accepted)| == TakenCount(pdfs, accepted)
    ensures forall c | c in PageCautions(pdfs, accepted) :: c.CheckPages? && c.pdf in pdfs
    ensures forall i :: 0 <= i < |pdfs| && pdfs[i] in accepted ==> CheckPages(pdfs[i], accepted[pdfs[i]]) in PageCautions(pdfs, accepted)
  {
    if pdfs != [] {
      PageCautionsCount(pdfs[1..], accepted);
    }
  }

  /**
   * No unflagged duplicate: each PDF still on disk that paperless-ngx took, or may have taken,
   * has its caution, and there are exactly as many cautions as such PDFs, so none has two and
   * no other PDF has one.
   */
  lemma OneCautionEach(pdfs: seq<Path>, kept: seq<Path>, accepted: map<Path, How>)
    requires |kept| <= |pdfs| && Distinct(pdfs) && Distinct(kept)
    ensures |DeliveryCautions(pdfs, kept, accepted)| == TakenCount(pdfs, accepted)
    ensures forall i :: 0 <= i < |pdfs| && pdfs[i] in accepted ==>
              CautionOn(pdfs, kept, accepted, i) in DeliveryCautions(pdfs, kept, accepted)
    ensures forall i, j :: 0 <= i < j < |pdfs| && pdfs[i] in accepted && pdfs[j] in accepted ==>
              CautionOn(pdfs, kept, accepted, i) != CautionOn(pdfs, kept, accepted, j)
  {
    var rest := pdfs[|kept|..];
    FileCautionsCount(pdfs, kept, accepted);
    PageCautionsCount(rest, accepted);
    assert pdfs == pdfs[..|kept|] + rest;
    TakenSplit(pdfs[..|kept|], rest, accepted);
    forall i | 0 <= i < |pdfs| && pdfs[i] in accepted
      ensures CautionOn(pdfs, kept, accepted, i) in DeliveryCautions(pdfs, kept, accepted)
    {
      if i >= |kept| {
        assert rest[i - |kept|] == pdfs[i];
      }
    }
  }

  /** What the PDFs of a delivery hold where they exist: pages of the spool, each in one PDF only. */
  ghost predicate Delivers(contents: map<Path, seq<Image>>, pdfs: seq<Path>, files: FileMap) {
    && (forall p | p in pdfs :: p in contents && contents[p] != [] && (p in files ==> files[p] == contents[p]))
    && (forall p, q, image | p in pdfs && q in pdfs && image in contents[p] && image in contents[q] :: p == q)
    && (forall p, image | p in pdfs && image in contents[p] :: InSpool(files, image))
  }

  /** Every page of the delivery is under `failed/`. */
  ghost predicate AllPagesIn(contents: map<Path, seq<Image>>, pdfs: seq<Path>, files: FileMap) {
    forall p, image | p in pdfs && p in contents && image in contents[p] :: InFailed(files, image)
  }

  /** Each page of the delivery is part of what the guard takes for the most finished artefact. */
  ghost predicate GuardCovers(contents: map<Path, seq<Image>>, found: Found, files: FileMap) {
    forall p, image | p in found.pdfs && p in contents && image in contents[p] :: MostFinished(found, files, image)
  }

  /**
   * The exact limit of conservation: during a delivery the guard moves the PDFs it finds, and
   * that covers every page of the delivery exactly when none of its PDFs has vanished.
   */
  lemma DeliveryCovers(found: Found, files: FileMap, contents: map<Path, seq<Image>>)
    requires KeepsPdfs(found, files) && Delivers(contents, found.pdfs, files)
    ensures GuardCovers(contents, found, files) <==> forall p | p in found.pdfs :: p in files
  {
    forall p | p in found.pdfs && p !in files ensures !GuardCovers(contents, found, files) {
      var image := contents[p][0];
      assert image in contents[p];
      assert forall q | q in found.pdfs && q in files :: image !in files[q];
      assert !MostFinished(found, files, image);
    }
  }

  /**
   * What that means at the end of a run, where the workspace is removed once the guard has
   * reported no problem: every page of the delivery is under `failed/` exactly when each of its
   * PDFs was still there, and of one that was not no page is left anywhere.
   */
  method PreserveDeliveryAndClear(disk: Disk, artefacts: RunArtefacts, ghost contents: map<Path, seq<Image>>)
    returns (report: PreservationReport)
    requires WellFound(Finds(artefacts)) && KeepsPdfs(Finds(artefacts), disk.files)
    requires Delivers(contents, artefacts.pdfs, disk.files)
    requires forall p, image | p in artefacts.pdfs && image in contents[p] :: !InFailed(disk.files, image)
    modifies disk
    ensures fresh(report)
    ensures report.problems == [] ==>
              && disk.files == Outside(disk.files)
              && (AllPagesIn(contents, artefacts.pdfs, disk.files) <==> forall p | p in artefacts.pdfs :: p in old(disk.files))
              && (forall p, image | p in artefacts.pdfs && p !in old(disk.files) && image in contents[p] ::
                    !InFailed(disk.files, image))
  {
    ghost var before := disk.files;
    ghost var taken;
    report, taken := PreserveMostFinished(disk, artefacts);
    if report.problems == [] {
      ghost var after := disk.files;
      disk.RemoveWorkspace();
      SameFailed(after);
      VanishedIsLost(artefacts.pdfs, before, disk.files, contents);
      ExistingIsKept(Finds(artefacts), before, after, disk.files, contents);
      NoneVanished(artefacts.pdfs, before, disk.files, contents);
    }
  }

  lemma SameFailed(files: FileMap)
    ensures forall image :: InFailed(Outside(files), image) <==> InFailed(files, image)
    ensures FailedImages(Outside(files)) == FailedImages(files)
    ensures Outside(Outside(files)) == Outside(files)
  {
    forall image | InFailed(files, image) ensures InFailed(Outside(files), image) {
      var p :| p in files && IsKept(p) && image in files[p];
      assert p in Outside(files);
    }
    forall image | image in FailedImages(files) ensures image in FailedImages(Outside(files)) {
      var p :| p in files && IsKept(p) && image in files[p];
      assert p in Outside(files) && image in Outside(files)[p];
    }
  }

  /** No page of a vanished PDF is under `failed/`. */
  lemma VanishedIsLost(pdfs: seq<Path>, before: FileMap, after: FileMap, contents: map<Path, seq<Image>>)
    requires Delivers(contents, pdfs, before)
    requires forall p, image | p in pdfs && image in contents[p] :: !InFailed(before, image)
    requires FailedImages(after) <= FailedImages(before) + ImagesOf(pdfs, before)
    ensures forall p, image | p in pdfs && p !in before && image in contents[p] :: !InFailed(after, image)
  {
    forall p, image | p in pdfs && p !in before && image in contents[p] ensures !InFailed(after, image) {
      assert !InFailed(before, image);
      assert forall q | q in before && IsKept(q) :: image !in before[q];
      assert image !in FailedImages(before);
      assert image !in ImagesOf(pdfs, before);
      assert image !in FailedImages(after);
    }
  }

  /** Every page of a PDF that was there is. */
  lemma ExistingIsKept(found: Found, before: FileMap, mid: FileMap, after: FileMap, contents: map<Path, seq<Image>>)
    requires KeepsPdfs(found, before) && Delivers(contents, found.pdfs, before) && Conserved(found, before, mid, [])
    requires forall image :: InFailed(after, image) <==> InFailed(mid, image)
    ensures forall p, image | p in found.pdfs && p in before && image in contents[p] :: InFailed(after, image)
  {
    forall p, image | p in found.pdfs && p in before && image in contents[p] ensures InFailed(after, image) {
      assert OnPdfs(found.pdfs, before, image);
      assert MostFinished(found, before, image);
    }
  }

  lemma NoneVanished(pdfs: seq<Path>, before: FileMap, after: FileMap, contents: map<Path, seq<Image>>)
    requires Delivers(contents, pdfs, before)
    requires forall p, image | p in pdfs && p in before && image in contents[p] :: InFailed(after, image)
    requires forall p, image | p in pdfs && p !in before && image in contents[p] :: !InFailed(after, image)
    ensures AllPagesIn(contents, pdfs, after) <==> forall p | p in pdfs :: p in before
  {
    forall p | p in pdfs && p !in before ensures !AllPagesIn(contents, pdfs, after) {
      var image := contents[p][0];
      assert image in contents[p] && !InFailed(after, image);
      assert p in contents;
    }
  }
}
