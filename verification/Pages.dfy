/** What a spooled page is known by, and the filter that drops the blank ones. */
module Pages {
  import opened FileSystem

  /** A spooled page: its number within its pass, its file, and what was measured of its ink. */
  datatype PageRecord = PageRecord(sequence: nat, path: Path, inkCoverage: real, paperWhite: nat)

  const PAPER_WHITE_FLOOR: nat := 128

  predicate IsBlank(page: PageRecord, threshold: real) {
    page.paperWhite >= PAPER_WHITE_FLOOR && page.inkCoverage <= threshold
  }

  function PathsOf(records: seq<PageRecord>): (paths: seq<Path>)
    ensures |paths| == |records|
    ensures forall i :: 0 <= i < |records| ==> paths[i] == records[i].path
  {
    seq(|records|, i requires 0 <= i < |records| => records[i].path)
  }

  function Reversed<T>(s: seq<T>): (r: seq<T>)
    ensures |r| == |s|
    ensures forall i :: 0 <= i < |s| ==> r[i] == s[|s| - 1 - i]
  {
    seq(|s|, i requires 0 <= i < |s| => s[|s| - 1 - i])
  }

  /** The numbers of `removed` are 1-based positions in a document of `count` pages, ascending. */
  ghost predicate Positions(removed: seq<nat>, count: nat) {
    && (forall i :: 0 <= i < |removed| ==> 1 <= removed[i] <= count)
    && (forall i, j :: 0 <= i < j < |removed| ==> removed[i] < removed[j])
  }

  /** The pages of a document whose 1-based positions are not in `removed`, in order. */
  function Kept<T>(pages: seq<T>, removed: seq<nat>): seq<T> {
    if pages == [] then []
    else
      var last := |pages| - 1;
      if |pages| in removed then Kept(pages[..last], removed) else Kept(pages[..last], removed) + [pages[last]]
  }

  /** Each page of a document is at a removed position or among the pages kept. */
  lemma {:induction false} KeptHolds(pages: seq<PageRecord>, removed: seq<nat>, i: nat)
    requires i < |pages|
    ensures i + 1 in removed || pages[i] in Kept(pages, removed)
  {
    var last := |pages| - 1;
    if i < last {
      KeptHolds(pages[..last], removed, i);
    }
  }

  lemma {:induction false} KeptOnlyHolds(pages: seq<PageRecord>, removed: seq<nat>, page: PageRecord)
    requires page in Kept(pages, removed)
    ensures exists i :: 0 <= i < |pages| && pages[i] == page && i + 1 !in removed
  {
    var last := |pages| - 1;
    if |pages| !in removed && page == pages[last] {
      assert last + 1 !in removed;
    } else {
      KeptOnlyHolds(pages[..last], removed, page);
      var i :| 0 <= i < last && pages[..last][i] == page && i + 1 !in removed;
      assert pages[i] == page;
    }
  }

  /** The last position of a document, when removed, is the last one listed. */
  lemma LastRemoved(removed: seq<nat>, count: nat)
    requires 0 < count && Positions(removed, count) && count in removed
    ensures removed[|removed| - 1] == count
    ensures Positions(removed[..|removed| - 1], count - 1)
    ensures forall i :: 1 <= i < count ==> (i in removed <==> i in removed[..|removed| - 1])
  {
    var k :| 0 <= k < |removed| && removed[k] == count;
    assert removed[|removed| - 1] <= count;
    var fewer := removed[..|removed| - 1];
    assert removed == fewer + [count];
    forall i | 0 <= i < |fewer| ensures 1 <= fewer[i] <= count - 1 {
      assert removed[i] < removed[|removed| - 1];
    }
  }

  lemma SomePosition(removed: seq<nat>, count: nat)
    requires removed != [] && Positions(removed, count)
    ensures 1 <= count
  {
    assert 1 <= removed[0] <= count;
  }

  /** Counting conserves pages: what is kept and what is removed add up to the document. */
  lemma {:induction false} KeptCounts(pages: seq<PageRecord>, removed: seq<nat>)
    requires Positions(removed, |pages|)
    ensures |Kept(pages, removed)| + |removed| == |pages|
  {
    if pages == [] {
      if removed != [] {
        SomePosition(removed, 0);
      }
    } else {
      var rest := pages[..|pages| - 1];
      if |pages| in removed {
        LastRemoved(removed, |pages|);
        var fewer := removed[..|removed| - 1];
        KeptCounts(rest, fewer);
        KeptFrame(rest, fewer, removed);
      } else {
        forall i | 0 <= i < |removed| ensures removed[i] <= |rest| {
          assert removed[i] in removed;
        }
        KeptCounts(rest, removed);
      }
    }
  }

  /** Only the positions within the document matter. */
  lemma {:induction false} KeptFrame(pages: seq<PageRecord>, a: seq<nat>, b: seq<nat>)
    requires forall i :: 1 <= i <= |pages| ==> (i in a <==> i in b)
    ensures Kept(pages, a) == Kept(pages, b)
  {
    if pages != [] {
      KeptFrame(pages[..|pages| - 1], a, b);
    }
  }

  lemma {:induction false} NothingRemoved(pages: seq<PageRecord>)
    ensures Kept(pages, []) == pages
  {
    if pages != [] {
      NothingRemoved(pages[..|pages| - 1]);
    }
  }

  lemma AllRemoved(pages: seq<PageRecord>, removed: seq<nat>)
    requires Kept(pages, removed) == []
    ensures forall i :: 1 <= i <= |pages| ==> i in removed
  {
    forall i | 1 <= i <= |pages| ensures i in removed {
      KeptHolds(pages, removed, i - 1);
    }
  }

  /** The positions of the blank pages, in document order. */
  function BlankPositions(pages: seq<PageRecord>, threshold: real): seq<nat> {
    if pages == [] then []
    else
      var last := |pages| - 1;
      BlankPositions(pages[..last], threshold) + if IsBlank(pages[last], threshold) then [|pages|] else []
  }

  lemma {:induction false} BlankPositionsAre(pages: seq<PageRecord>, threshold: real)
    ensures Positions(BlankPositions(pages, threshold), |pages|)
    ensures forall i :: 1 <= i <= |pages| ==> (i in BlankPositions(pages, threshold) <==> IsBlank(pages[i - 1], threshold))
  {
    if pages != [] {
      BlankPositionsAre(pages[..|pages| - 1], threshold);
    }
  }

  lemma KeptGrows(pages: seq<PageRecord>, threshold: real)
    requires pages != []
    ensures var last := |pages| - 1;
            Kept(pages, BlankPositions(pages, threshold))
              == Kept(pages[..last], BlankPositions(pages[..last], threshold))
                 + if IsBlank(pages[last], threshold) then [] else [pages[last]]
  {
    BlankPositionsAre(pages, threshold);
    KeptFrame(pages[..|pages| - 1], BlankPositions(pages[..|pages| - 1], threshold), BlankPositions(pages, threshold));
  }

  /**
   * `filter_blank_pages`: judge every page by what its record carries, in document order.
   * A position is removed exactly when the page there is blank, so the filter keeps no blank
   * page, loses no other one, and keeps their order.
   */
  method FilterBlankPages(pages: seq<PageRecord>, threshold: real)
    returns (kept: seq<PageRecord>, removed: seq<nat>)
    ensures Positions(removed, |pages|)
    ensures forall i :: 1 <= i <= |pages| ==> (i in removed <==> IsBlank(pages[i - 1], threshold))
    ensures removed == BlankPositions(pages, threshold)
    ensures kept == Kept(pages, removed)
    ensures |kept| + |removed| == |pages|
  {
    kept, removed := [], [];
    var position := 0;
    while position < |pages|
      invariant position <= |pages|
      invariant removed == BlankPositions(pages[..position], threshold)
      invariant kept == Kept(pages[..position], removed)
    {
      var page := pages[position];
      assert pages[..position + 1][..position] == pages[..position];
      KeptGrows(pages[..position + 1], threshold);
      position := position + 1;
      if IsBlank(page, threshold) {
        removed := removed + [position];
      } else {
        kept := kept + [page];
      }
    }
    assert pages[..position] == pages;
    BlankPositionsAre(pages, threshold);
    KeptCounts(pages, removed);
  }
}
