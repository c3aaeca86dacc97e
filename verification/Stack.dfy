/** What a manual duplex run delivers of the stack of sheets that was put in the feeder. */
module Stack {
  import opened FileSystem
  import opened Pages
  import opened Ledger
  import opened MultiPage
  import opened Recovery
  import opened Duplex
  import opened Pipeline

  /** What each of these sides looks like. */
  ghost function Photos(photo: Side -> Image, sides: seq<Side>): (r: seq<Image>)
    ensures |r| == |sides|
  {
    seq(|sides|, i requires 0 <= i < |sides| => photo(sides[i]))
  }

  /** The pages are these sides, in this order. */
  ghost predicate Pictures(owed: map<Path, Image>, pages: seq<PageRecord>, photo: Side -> Image, sides: seq<Side>) {
    PathSet(pages) <= owed.Keys && ImagesOwed(owed, pages) == Photos(photo, sides)
  }

  /** Leaving pages out leaves the same sides out. */
  lemma {:induction false} KeptPictures(owed: map<Path, Image>, pages: seq<PageRecord>, photo: Side -> Image, sides: seq<Side>, removed: seq<nat>)
    requires Pictures(owed, pages, photo, sides)
    ensures PathSet(Kept(pages, removed)) <= owed.Keys
    ensures ImagesOwed(owed, Kept(pages, removed)) == Kept(Photos(photo, sides), removed)
  {
    assert |pages| == |ImagesOwed(owed, pages)| == |sides|;
    KeptFiles(pages, removed);
    if pages != [] {
      var last := |pages| - 1;
      assert pages == pages[..last] + [pages[last]];
      PathSetAppends(pages[..last], [pages[last]]);
      assert ImagesOwed(owed, pages[..last]) == ImagesOwed(owed, pages)[..last];
      assert Photos(photo, sides[..last]) == Photos(photo, sides)[..last];
      KeptPictures(owed, pages[..last], photo, sides[..last], removed);
      assert owed[pages[last].path] == ImagesOwed(owed, pages)[last] == photo(sides[last]);
    }
  }

  /** A page of a picture is the side at its place. */
  lemma PictureAt(owed: map<Path, Image>, pages: seq<PageRecord>, photo: Side -> Image, sides: seq<Side>, i: nat)
    requires Pictures(owed, pages, photo, sides) && i < |pages|
    ensures |sides| == |pages| && pages[i].path in owed && owed[pages[i].path] == photo(sides[i])
  {
    assert |ImagesOwed(owed, pages)| == |sides|;
    assert pages[i].path in PathSet(pages);
    assert ImagesOwed(owed, pages)[i] == Photos(photo, sides)[i];
  }

  /** Each page of an interleaved document is the front or the back that its place says. */
  lemma InterleavedPlace<T>(fronts: seq<T>, backs: seq<T>, k: nat)
    requires |fronts| == |backs| && k < 2 * |fronts|
    ensures |Interleaved(fronts, backs)| == 2 * |fronts|
    ensures Interleaved(fronts, backs)[k] == if k % 2 == 0 then fronts[k / 2] else backs[|backs| - 1 - k / 2]
  {
    InterleavedAt(fronts, backs);
    assert k == 2 * (k / 2) + k % 2;
  }

  lemma InterleavedPictureAt(owed: map<Path, Image>, fronts: seq<PageRecord>, backs: seq<PageRecord>, photo: Side -> Image,
                             frontSides: seq<Side>, backSides: seq<Side>, k: nat)
    requires |fronts| == |backs| == |frontSides| == |backSides| && k < 2 * |fronts|
    requires Pictures(owed, fronts, photo, frontSides) && Pictures(owed, backs, photo, backSides)
    ensures |Interleaved(fronts, backs)| == |Interleaved(frontSides, backSides)| == 2 * |fronts|
    ensures
      var page := Interleaved(fronts, backs)[k].path;
      page in owed && owed[page] == photo(Interleaved(frontSides, backSides)[k])
  {
    InterleavedPlace(fronts, backs, k);
    InterleavedPlace(frontSides, backSides, k);
    if k % 2 == 0 {
      PictureAt(owed, fronts, photo, frontSides, k / 2);
    } else {
      PictureAt(owed, backs, photo, backSides, |backs| - 1 - k / 2);
    }
  }

  /** Interleaving the pages of two passes interleaves their sides. */
  lemma InterleavedPictures(owed: map<Path, Image>, fronts: seq<PageRecord>, backs: seq<PageRecord>, photo: Side -> Image,
                            frontSides: seq<Side>, backSides: seq<Side>)
    requires |fronts| == |backs| == |frontSides| == |backSides|
    requires Pictures(owed, fronts, photo, frontSides) && Pictures(owed, backs, photo, backSides)
    ensures Pictures(owed, Interleaved(fronts, backs), photo, Interleaved(frontSides, backSides))
  {
    InterleavedFiles(fronts, backs);
    var pages, sides := Interleaved(fronts, backs), Interleaved(frontSides, backSides);
    assert |pages| == |sides| == 2 * |fronts| by {
      InterleavedAt(fronts, backs);
      InterleavedAt(frontSides, backSides);
    }
    forall k | 0 <= k < |pages| ensures ImagesOwed(owed, pages)[k] == photo(sides[k]) {
      InterleavedPictureAt(owed, fronts, backs, photo, frontSides, backSides, k);
    }
  }

  /** Counts agree where nothing was lost and nothing was left unfed, and otherwise a loss is known of or they differ. */
  lemma WholeStack(count: nat, fed: nat, lostA: set<nat>, lostB: set<nat>)
    requires fed <= count && lostA <= Below(count) && lostB <= Below(count)
    ensures !Split(|FrontsScanned(count, lostA)|, |BacksScanned(count, fed, lostB)|, |lostA|, |lostB|, false)
       <==> lostA == {} && lostB == {} && fed == count
  {
    AllSheets(count, {});
    SheetsAre(count, {} + Unreached(count, fed));
    if fed < count {
      FewerSheets(count, {} + Unreached(count, fed));
    } else {
      assert {} + Unreached(count, count) == {};
    }
  }

  /**
   * A manual duplex run delivers the stack in reading order, but for the pages its filter
   * removes, exactly when its passes lost no sheet, reached every one and pass B stopped at no
   * cap; otherwise it delivers what each pass saw, in the order of the sheets.
   */
  lemma DuplexDeliversTheStack(plan: Plan, owed: map<Path, Image>, batches: Batches, front: ScanBatch, back: ScanBatch,
                               photo: Side -> Image, count: nat, fed: nat, lostA: set<nat>, lostB: set<nat>)
    requires DuplexPlan(plan, batches, front, back) && front.cap.None? && PathSet(plan.Pages()) <= owed.Keys
    requires fed <= count && lostA <= Below(count) && lostB <= Below(count)
    requires front.rejected == |lostA| && back.rejected == |lostB|
    requires Pictures(owed, front.pages, photo, FrontsScanned(count, lostA))
    requires Pictures(owed, back.pages, photo, BacksScanned(count, fed, lostB))
    ensures plan.OneDocument? <==> lostA == {} && lostB == {} && fed == count && back.cap.None?
    ensures plan.OneDocument? ==>
              Uploads(plan, owed) == map[AssembledPdf(WholePart) := Kept(Photos(photo, Duplex.Document(count)), plan.removed)]
    ensures !plan.OneDocument? ==>
              Uploads(plan, owed) == map[AssembledPdf(FrontsPart) := Photos(photo, FrontsScanned(count, lostA)),
                                         AssembledPdf(BacksPart) := Photos(photo, Reversed(BacksScanned(count, fed, lostB)))]
  {
    var a, b := FrontsScanned(count, lostA), BacksScanned(count, fed, lostB);
    assert |ImagesOwed(owed, front.pages)| == |a| && |ImagesOwed(owed, back.pages)| == |b|;
    WholeStack(count, fed, lostA, lostB);
    if plan.OneDocument? {
      UnsplitIsTheDocument(count, fed, lostA, lostB);
      InterleavedPictures(owed, front.pages, back.pages, photo, a, b);
      KeptPictures(owed, plan.pages, photo, Duplex.Document(count), plan.removed);
    } else {
      assert Reversed(Photos(photo, b)) == Photos(photo, Reversed(b));
    }
  }
}
