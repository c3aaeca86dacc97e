/** What a run must have, at each stage, for its guard to lose nothing it owes. */
module Recovery {
  import opened FileSystem
  import opened Pages
  import opened MultiPage
  import opened Ledger
  import opened Preservation

  lemma OnePassFiles(pass: Pass)
    ensures FlightFiles([pass]) == PathSet(pass.records)
  {
    FlightAppends([], pass);
    assert [] + [pass] == [pass];
  }

  ghost function ImageSet(images: seq<Image>): set<Image> {
    set i | i in images
  }

  /** Every image in one of the PDFs. */
  ghost function PdfImages(pdfs: seq<Path>, files: FileMap): set<Image> {
    if pdfs == [] then {}
    else (if pdfs[0] in files then ImageSet(files[pdfs[0]]) else {}) + PdfImages(pdfs[1..], files)
  }

  ghost predicate AllThere(pdfs: seq<Path>, files: FileMap) {
    pdfs == [] || (pdfs[0] in files && pdfs[0].AssembledPdf? && AllThere(pdfs[1..], files))
  }

  /** Everything an acquisition brought: the document's pages, or while there is none those of its passes. */
  ghost function Acquired(document: seq<PageRecord>, flight: seq<Pass>): set<Path> {
    if document == [] then FlightFiles(flight) else PathSet(document)
  }

  /**
   * What a run owes its operator still: every page, or once a document is being delivered every
   * page of it that was not removed as blank.
   */
  ghost function Due(owed: map<Path, Image>, stage: RunStage, document: seq<PageRecord>, removed: seq<nat>): map<Path, Image> {
    if stage == Delivering && document != [] then Only(owed, PathSet(Kept(document, removed))) else owed
  }

  /**
   * What each stage rests on: the pages in the document or in flight, the unfiltered document,
   * the page files, or the PDFs being delivered.
   */
  ghost predicate Recoverable(owed: map<Path, Image>, stage: RunStage, document: seq<PageRecord>, removed: seq<nat>,
                              flight: seq<Pass>, pdfs: seq<Path>, files: FileMap)
  {
    && Safe(owed, owed.Keys, files)
    && WholePages(PathSet(document) + FlightFiles(flight)) == PathSet(document) + FlightFiles(flight)
    && Distinct(pdfs)
    && match stage
       case Acquiring => pdfs == [] && owed.Keys == PathSet(document) + FlightFiles(flight)
       case Filtering => pdfs == [] && owed.Keys == Acquired(document, flight)
       case Assembling => owed.Keys == Acquired(document, flight)
       case Delivering =>
         && pdfs != []
         && AllThere(pdfs, files)
         && owed.Keys == Acquired(document, flight)
         && Due(owed, stage, document, removed).Values <= PdfImages(pdfs, files)
       case Delivered => false
  }

  lemma {:induction false} PdfImagesOnPdfs(pdfs: seq<Path>, files: FileMap, image: Image)
    requires image in PdfImages(pdfs, files)
    ensures OnPdfs(pdfs, files, image)
  {
    if pdfs[0] in files && image in files[pdfs[0]] {
      assert pdfs[0] in pdfs;
    } else {
      PdfImagesOnPdfs(pdfs[1..], files, image);
      var p :| p in pdfs[1..] && p in files && image in files[p];
      assert p in pdfs;
    }
  }

  lemma {:induction false} AllThereAre(pdfs: seq<Path>, files: FileMap)
    requires AllThere(pdfs, files)
    ensures forall p | p in pdfs :: p in files && p.AssembledPdf?
  {
    if pdfs != [] {
      AllThereAre(pdfs[1..], files);
    }
  }

  /** The pages in flight are on the passes the guard is given. */
  lemma FlightOnPasses(flight: seq<Pass>, files: FileMap, p: Path, image: Image)
    requires p in FlightFiles(flight) && p in files && image in files[p]
    ensures OnPasses(NonEmpty(flight), files, image) && AnyPages(NonEmpty(flight))
  {
    FlightHolds(flight, p);
    var i :| 0 <= i < |flight| && p in PathSet(flight[i].records);
    assert OnPages(flight[i].records, files, image);
    assert flight[i] in NonEmpty(flight);
  }

  lemma FlightSpooled(flight: seq<Pass>)
    requires forall p | p in FlightFiles(flight) :: p.SpoolFile?
    ensures PassesSpooled(NonEmpty(flight))
  {
    forall pass, r | pass in NonEmpty(flight) && r in pass.records ensures r.path.SpoolFile? {
      var i :| 0 <= i < |flight| && flight[i] == pass;
      assert r.path in PathSet(flight[i].records);
      FlightHolds(flight, r.path);
    }
  }

  lemma OwedIsMostFinished(owed: map<Path, Image>, found: Found, removed: seq<nat>, flight: seq<Pass>, files: FileMap, p: Path)
    requires Recoverable(owed, found.stage, found.document, removed, flight, found.pdfs, files)
    requires found.passes == NonEmpty(flight)
    requires p in Due(owed, found.stage, found.document, removed)
    requires p in files && files[p] == [owed[p]] && InSpool(files, owed[p])
    ensures MostFinished(found, files, owed[p])
  {
    if found.stage == Delivering {
      AllThereAre(found.pdfs, files);
      assert owed[p] in Due(owed, found.stage, found.document, removed).Values;
      PdfImagesOnPdfs(found.pdfs, files, owed[p]);
    } else if p in PathSet(found.document) {
      assert OnPages(found.document, files, owed[p]);
    } else if p in FlightFiles(flight) {
      FlightOnPasses(flight, files, p, owed[p]);
    }
  }

  /** What a recoverable run owes still is part of the most finished artefact its guard finds. */
  lemma RecoverableIsMostFinished(owed: map<Path, Image>, found: Found, removed: seq<nat>, flight: seq<Pass>, files: FileMap)
    requires Recoverable(owed, found.stage, found.document, removed, flight, found.pdfs, files)
    requires found.passes == NonEmpty(flight) && (found.pdfs != [] ==> AllThere(found.pdfs, files))
    ensures WellFound(found)
    ensures forall p | p in owed :: p in files && files[p] == [owed[p]] && p.SpoolFile? && !p.entry.partial
    ensures forall p | p in Due(owed, found.stage, found.document, removed) ::
              MostFinished(found, files, owed[p]) && InSpool(files, owed[p])
  {
    SafeMeans(owed, owed.Keys, files);
    var referenced := PathSet(found.document) + FlightFiles(flight);
    forall p | p in referenced ensures p.SpoolFile? {
      assert p in WholePages(referenced);
    }
    forall r | r in found.document ensures r.path.SpoolFile? {
      assert r.path in PathSet(found.document);
    }
    FlightSpooled(flight);
    AllThereAre(found.pdfs, files);
    forall p | p in Due(owed, found.stage, found.document, removed)
      ensures MostFinished(found, files, owed[p]) && InSpool(files, owed[p])
    {
      assert p in SpoolPart(files);
      OwedIsMostFinished(owed, found, removed, flight, files, p);
    }
  }

  /** How a page the run owes ends up once the guard is done. */
  ghost predicate KeptOrLeft(owed: map<Path, Image>, files: FileMap, left: bool) {
    forall p | p in owed :: InFailed(files, owed[p]) || (left && p in files && files[p] == [owed[p]])
  }

  /** The guard's preservation keeps or leaves every page owed, and sees when it leaves any. */
  lemma PreservedMeans(owed: map<Path, Image>, found: Found, before: FileMap, after: FileMap, problems: seq<Problem>)
    requires forall p | p in owed :: p in before && before[p] == [owed[p]] && p.SpoolFile? && !p.entry.partial
    requires forall p | p in owed :: MostFinished(found, before, owed[p]) && InSpool(before, owed[p])
    requires Conserved(found, before, after, problems) && NoPageLost(before, after)
    ensures KeptOrLeft(owed, after, problems != [] && HasPagesLeft(after))
  {
    forall p | p in owed
      ensures InFailed(after, owed[p]) || (problems != [] && HasPagesLeft(after) && p in after && after[p] == [owed[p]])
    {
      assert SpoolFile(p.entry) in before;
      if PageMoved(before, after, p.entry) {
        assert FailedPage(p.entry) in after && IsKept(FailedPage(p.entry)) && owed[p] in after[FailedPage(p.entry)];
      }
    }
  }

  lemma {:induction false} ImagesCount(owed: map<Path, Image>, files: FileMap, paths: seq<Path>)
    requires forall p | p in paths :: p in files && p in owed && files[p] == [owed[p]]
    ensures |Images(files, paths)| == |paths|
    ensures forall i :: 0 <= i < |paths| ==> Images(files, paths)[i] == owed[paths[i]]
  {
    if paths != [] {
      ImagesCount(owed, files, paths[1..]);
    }
  }

  /** The images of these pages, in order. */
  ghost function ImagesOwed(owed: map<Path, Image>, records: seq<PageRecord>): (images: seq<Image>)
    requires PathSet(records) <= owed.Keys
    ensures |images| == |records|
  {
    seq(|records|, i requires 0 <= i < |records| => assert records[i].path in PathSet(records); owed[records[i].path])
  }

  /** A PDF assembled from pages the run owes holds exactly their images, in order. */
  lemma AssembledHolds(owed: map<Path, Image>, files: FileMap, records: seq<PageRecord>)
    requires Safe(owed, owed.Keys, files) && PathSet(records) <= owed.Keys
    ensures forall p | p in PathsOf(records) :: p in files
    ensures Images(files, PathsOf(records)) == ImagesOwed(owed, records)
  {
    SafeMeans(owed, owed.Keys, files);
    var paths := PathsOf(records);
    forall p | p in paths ensures p in files && p in owed && files[p] == [owed[p]] {
      assert p in PathSet(records);
    }
    ImagesCount(owed, files, paths);
  }

  /** Writing or replacing a PDF leaves every page file. */
  lemma SafeBeside(owed: map<Path, Image>, referenced: set<Path>, files: FileMap, pdf: Path, images: seq<Image>)
    requires Safe(owed, referenced, files) && !pdf.SpoolFile?
    ensures Safe(owed, referenced, files[pdf := images])
  {
    SafeMeans(owed, referenced, files);
    SafeMeans(owed, referenced, files[pdf := images]);
  }

  /** Those of the pages owed. */
  ghost function Only(owed: map<Path, Image>, left: set<Path>): map<Path, Image> {
    map p | p in owed && p in left :: owed[p]
  }

  lemma OwedInImages(owed: map<Path, Image>, records: seq<PageRecord>)
    requires PathSet(records) <= owed.Keys
    ensures Only(owed, PathSet(records)).Values <= ImageSet(ImagesOwed(owed, records))
  {
    var images := ImagesOwed(owed, records);
    forall image | image in Only(owed, PathSet(records)).Values ensures image in images {
      var p :| p in PathSet(records) && owed[p] == image;
      var i :| 0 <= i < |records| && records[i].path == p;
      assert images[i] == image;
    }
  }

  lemma KeptFiles(pages: seq<PageRecord>, removed: seq<nat>)
    ensures PathSet(Kept(pages, removed)) <= PathSet(pages)
  {
    forall p | p in PathSet(Kept(pages, removed)) ensures p in PathSet(pages) {
      var r :| r in Kept(pages, removed) && r.path == p;
      KeptOnlyHolds(pages, removed, r);
    }
  }

  lemma ReversedFiles(owed: map<Path, Image>, records: seq<PageRecord>)
    ensures PathSet(Reversed(records)) == PathSet(records)
    ensures PathSet(records) <= owed.Keys ==> ImagesOwed(owed, Reversed(records)) == Reversed(ImagesOwed(owed, records))
  {
    forall p | p in PathSet(records) ensures p in PathSet(Reversed(records)) {
      var i :| 0 <= i < |records| && records[i].path == p;
      assert Reversed(records)[|records| - 1 - i].path == p;
    }
  }

  /** The two halves of a mismatch hold everything the run owes. */
  lemma HalvesHold(owed: map<Path, Image>, fronts: seq<PageRecord>, backs: seq<PageRecord>, frontsPdf: Path, backsPdf: Path, files: FileMap)
    requires PathSet(fronts) + PathSet(backs) == owed.Keys
    requires frontsPdf in files && files[frontsPdf] == ImagesOwed(owed, fronts)
    requires backsPdf in files && files[backsPdf] == Reversed(ImagesOwed(owed, backs))
    requires frontsPdf.AssembledPdf? && backsPdf.AssembledPdf?
    ensures AllThere([frontsPdf, backsPdf], files)
    ensures owed.Values <= PdfImages([frontsPdf, backsPdf], files)
  {
    ReversedFiles(owed, backs);
    OwedInImages(owed, fronts);
    OwedInImages(owed, Reversed(backs));
    var pdfs := [frontsPdf, backsPdf];
    assert pdfs[1..] == [backsPdf] && pdfs[1..][1..] == [];
    forall image | image in owed.Values ensures image in PdfImages(pdfs, files) {
      var p :| p in owed && owed[p] == image;
      if p in PathSet(fronts) {
        assert Only(owed, PathSet(fronts))[p] == image;
      } else {
        assert Only(owed, PathSet(Reversed(backs)))[p] == image;
      }
    }
  }

  lemma {:induction false} AllExist(pdfs: seq<Path>, files: FileMap)
    requires AllThere(pdfs, files)
    ensures Existing(pdfs, files) == pdfs
  {
    if pdfs != [] {
      AllExist(pdfs[1..], files);
    }
  }
}
