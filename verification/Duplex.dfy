/** Manual duplex: interleaving the two passes, and when position proves which sides belong together. */
module Duplex {
  import opened Outcomes
  import opened Pages

  /** Fronts and backs in turn; pass B fed the flipped stack, so its pages are taken from the end. */
  function Interleaved<T>(fronts: seq<T>, backs: seq<T>): seq<T>
    requires |fronts| == |backs|
  {
    if fronts == [] then []
    else
      Interleaved(fronts[..|fronts| - 1], backs[1..]) + [fronts[|fronts| - 1], backs[0]]
  }

  lemma {:induction false} InterleavedAt<T>(fronts: seq<T>, backs: seq<T>)
    requires |fronts| == |backs|
    ensures |Interleaved(fronts, backs)| == 2 * |fronts|
    ensures forall i :: 0 <= i < |fronts| ==> Interleaved(fronts, backs)[2 * i] == fronts[i]
    ensures forall i :: 0 <= i < |fronts| ==> Interleaved(fronts, backs)[2 * i + 1] == Reversed(backs)[i]
  {
    if fronts != [] {
      var last := |fronts| - 1;
      InterleavedAt(fronts[..last], backs[1..]);
      forall i | 0 <= i < |fronts| ensures Interleaved(fronts, backs)[2 * i + 1] == Reversed(backs)[i] {
        if i < last {
          assert Interleaved(fronts[..last], backs[1..])[2 * i + 1] == Reversed(backs[1..])[i];
        }
      }
    }
  }

  /** The pages at even places, or at odd ones. */
  function EveryOther<T>(pages: seq<T>, first: nat): (r: seq<T>)
    requires |pages| % 2 == 0 && first < 2
    ensures |r| == |pages| / 2
  {
    seq(|pages| / 2, i requires 0 <= i < |pages| / 2 => pages[2 * i + first])
  }

  /** No page is lost and none invented: taking an interleaved document apart gives both passes back. */
  lemma DeInterleave<T>(fronts: seq<T>, backs: seq<T>)
    requires |fronts| == |backs|
    ensures var document := Interleaved(fronts, backs);
            && |document| == 2 * |fronts|
            && EveryOther(document, 0) == fronts
            && Reversed(EveryOther(document, 1)) == backs
  {
    InterleavedAt(fronts, backs);
  }

  /** `interleave_duplex`: refused when the counts differ, and otherwise built pair by pair. */
  method InterleaveDuplex(fronts: seq<PageRecord>, backs: seq<PageRecord>) returns (r: Step<seq<PageRecord>>)
    ensures r.Value? <==> |fronts| == |backs|
    ensures r.Raised? ==> r.ending == Failed(ScannerFault)
    ensures r.Value? ==> r.value == Interleaved(fronts, backs)
  {
    if |fronts| != |backs| {
      return Raised(Failed(ScannerFault));
    }
    var backsReversed := Reversed(backs);
    var result: seq<PageRecord> := [];
    var n := |fronts|;
    for i := 0 to n
      invariant result == Interleaved(fronts[..i], backs[n - i..])
    {
      assert fronts[..i + 1][..i] == fronts[..i] && backs[n - i - 1..][1..] == backs[n - i..];
      result := result + [fronts[i]];
      result := result + [backsReversed[i]];
    }
    assert fronts[..n] == fronts && backs[0..] == backs;
    return Value(result);
  }

  /** One side of one sheet of the stack that was put in the feeder. */
  datatype Side = Front(sheet: nat) | Back(sheet: nat)

  /** The sheets of a stack of `count` that a pass did not lose, first sheet first. */
  function Sheets(count: nat, lost: set<nat>): seq<nat> {
    if count == 0 then []
    else Sheets(count - 1, lost) + if count - 1 in lost then [] else [count - 1]
  }

  lemma {:induction false} SheetsAre(count: nat, lost: set<nat>)
    ensures forall s: nat :: s in Sheets(count, lost) <==> s < count && s !in lost
    ensures forall i, j :: 0 <= i < j < |Sheets(count, lost)| ==> Sheets(count, lost)[i] < Sheets(count, lost)[j]
  {
    if count > 0 {
      SheetsAre(count - 1, lost);
      var before := Sheets(count - 1, lost);
      forall i | 0 <= i < |before| ensures before[i] < count - 1 {
        assert before[i] in before;
      }
    }
  }

  /** Pass A sees the front of each sheet it did not lose, in order. */
  function FrontsScanned(count: nat, lost: set<nat>): (r: seq<Side>)
    ensures |r| == |Sheets(count, lost)|
  {
    var sheets := Sheets(count, lost);
    seq(|sheets|, i requires 0 <= i < |sheets| => Front(sheets[i]))
  }

  function Below(n: nat): (r: set<nat>)
    ensures forall s: nat :: s in r <==> s < n
  {
    if n == 0 then {} else Below(n - 1) + {n - 1}
  }

  /** The sheets a pass over the flipped stack reached before it stopped: the last `fed` of them. */
  function Unreached(count: nat, fed: nat): set<nat>
    requires fed <= count
  {
    Below(count - fed)
  }

  /** Pass B feeds the flipped stack, last sheet first, until it has fed `fed` sheets. */
  function BacksScanned(count: nat, fed: nat, lost: set<nat>): (r: seq<Side>)
    requires fed <= count
    ensures |r| == |Sheets(count, lost + Unreached(count, fed))|
  {
    var sheets := Sheets(count, lost + Unreached(count, fed));
    seq(|sheets|, i requires 0 <= i < |sheets| => Back(sheets[|sheets| - 1 - i]))
  }

  lemma {:induction false} AllSheets(count: nat, lost: set<nat>)
    requires forall s | s in lost :: s >= count
    ensures Sheets(count, lost) == seq(count, i requires 0 <= i < count => i)
  {
    if count > 0 {
      AllSheets(count - 1, lost);
    }
  }

  /** Sheet by sheet, front and then back. */
  function Document(count: nat): seq<Side> {
    if count == 0 then [] else Document(count - 1) + [Front(count - 1), Back(count - 1)]
  }

  /** Every front is followed by the back of its own sheet. */
  ghost predicate PairedRight(document: seq<Side>) {
    && |document| % 2 == 0
    && forall i :: 0 <= i < |document| / 2 ==>
         document[2 * i].Front? && document[2 * i + 1] == Back(document[2 * i].sheet)
  }

  /**
   * When the counts agree, the interleaved document is paired right exactly when both passes
   * lost the same sheets.
   */
  lemma PairingNeedsTheSameSheets(count: nat, fed: nat, lostA: set<nat>, lostB: set<nat>)
    requires fed <= count && |FrontsScanned(count, lostA)| == |BacksScanned(count, fed, lostB)|
    ensures PairedRight(Interleaved(FrontsScanned(count, lostA), BacksScanned(count, fed, lostB)))
       <==> Sheets(count, lostA) == Sheets(count, lostB + Unreached(count, fed))
  {
    var a, b := FrontsScanned(count, lostA), BacksScanned(count, fed, lostB);
    var sheetsA, sheetsB := Sheets(count, lostA), Sheets(count, lostB + Unreached(count, fed));
    InterleavedAt(a, b);
    var document := Interleaved(a, b);
    forall i | 0 <= i < |a| ensures document[2 * i] == Front(sheetsA[i]) && document[2 * i + 1] == Back(sheetsB[i]) {
      assert document[2 * i + 1] == Reversed(b)[i];
    }
    if PairedRight(document) {
      forall i | 0 <= i < |sheetsA| ensures sheetsA[i] == sheetsB[i] {
        assert document[2 * i + 1] == Back(document[2 * i].sheet);
      }
    }
  }

  /** What makes the run deliver two halves: a sheet either pass could not read, a cap, or the counts. */
  predicate Split(fronts: nat, backs: nat, rejectedA: nat, rejectedB: nat, capped: bool) {
    rejectedA > 0 || rejectedB > 0 || capped || fronts != backs
  }

  /**
   * A run that is not split, by a scanner that reports every sheet it loses, delivers every side
   * of the stack in reading order.
   */
  lemma UnsplitIsTheDocument(count: nat, fed: nat, lostA: set<nat>, lostB: set<nat>)
    requires fed <= count
    requires lostA <= Below(count) && lostB <= Below(count)
    requires !Split(|FrontsScanned(count, lostA)|, |BacksScanned(count, fed, lostB)|, |lostA|, |lostB|, false)
    ensures Interleaved(FrontsScanned(count, lostA), BacksScanned(count, fed, lostB)) == Document(count)
  {
    AllSheets(count, {});
    var unreached := lostB + Unreached(count, fed);
    SheetsAre(count, unreached);
    if fed < count {
      assert 0 in unreached;
      FewerSheets(count, unreached);
      assert false;
    }
    assert unreached == {};
    DocumentIs(count);
  }

  lemma {:induction false} FewerSheets(count: nat, lost: set<nat>)
    ensures |Sheets(count, lost)| <= count
    ensures 0 < count && 0 in lost ==> |Sheets(count, lost)| < count
  {
    if count > 0 {
      FewerSheets(count - 1, lost);
    }
  }

  lemma {:induction false} DocumentIs(count: nat)
    ensures |FrontsScanned(count, {})| == |BacksScanned(count, count, {})|
    ensures Interleaved(FrontsScanned(count, {}), BacksScanned(count, count, {})) == Document(count)
  {
    AllSheets(count, {});
    assert {} + Unreached(count, count) == {};
    if count > 0 {
      DocumentIs(count - 1);
      AllSheets(count - 1, {});
      assert {} + Unreached(count - 1, count - 1) == {};
      var a, b := FrontsScanned(count, {}), BacksScanned(count, count, {});
      assert a[..count - 1] == FrontsScanned(count - 1, {});
      assert b[1..] == BacksScanned(count - 1, count - 1, {});
    }
  }

  /** Equal counts alone prove nothing: each pass losing a different sheet pairs every side wrongly. */
  lemma EqualCountsCanPairWrongly()
    ensures
      var a, b := FrontsScanned(2, {0}), BacksScanned(2, 2, {1});
      |a| == |b| && !PairedRight(Interleaved(a, b)) && Interleaved(a, b) == [Front(1), Back(0)]
  {
    assert Sheets(2, {0}) == [1];
    assert {1} + Unreached(2, 2) == {1};
    assert Sheets(2, {1}) == [0] by {
      assert Sheets(1, {1}) == [0];
    }
    var a, b := FrontsScanned(2, {0}), BacksScanned(2, 2, {1});
    assert a == [Front(1)] && b == [Back(0)];
    InterleavedAt(a, b);
    var document := Interleaved(a, b);
    assert document[2 * 0] == Front(1) && document[2 * 0 + 1] == Back(0);
    assert document == [Front(1), Back(0)];
  }

  /**
   * A backs pass that stopped early is kept reversed, as its own PDF: its page j, counted from
   * one, is the back of sheet fronts - backs + j, as the caution beside it says.
   */
  lemma StoppedBacksStartWhereSaid(count: nat, fed: nat, j: nat)
    requires 0 < j <= fed <= count
    ensures |FrontsScanned(count, {})| == count && |BacksScanned(count, fed, {})| == fed
    ensures Reversed(BacksScanned(count, fed, {}))[j - 1] == Back(|FrontsScanned(count, {})| - |BacksScanned(count, fed, {})| + j - 1)
  {
    AllSheets(count, {});
    LastSheets(count, fed);
  }

  lemma {:induction false} LastSheets(count: nat, fed: nat)
    requires fed <= count
    ensures Sheets(count, {} + Unreached(count, fed)) == seq(fed, i requires 0 <= i < fed => count - fed + i)
  {
    var lost := {} + Unreached(count, fed);
    if fed == 0 {
      NoSheets(count, lost);
    } else {
      assert Unreached(count, fed) == Unreached(count - 1, fed - 1);
      LastSheets(count - 1, fed - 1);
    }
  }

  lemma {:induction false} NoSheets(count: nat, lost: set<nat>)
    requires forall s :: 0 <= s < count ==> s in lost
    ensures Sheets(count, lost) == []
  {
    if count > 0 {
      NoSheets(count - 1, lost);
    }
  }
}
