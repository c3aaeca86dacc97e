/** A multi-page document as it grows, pass by pass, and what its bookkeeping means. */
module MultiPage {
  import opened Outcomes
  import opened Signals
  import opened FileSystem
  import opened SpoolNames
  import opened Pages
  import opened Spool
  import opened Operators

  /** The sheet cap a pass stopped at, and the sheet that was fed past it and not kept. */
  datatype PassCap = PassCap(cap: nat, sheetNotKept: nat)

  /** What the backend returns for one pass. */
  datatype ScanBatch = ScanBatch(pages: seq<PageRecord>, rejected: nat, cap: Option<PassCap>)

  const MAX_PAGES_PER_PASS: nat := 500
  const MAX_DOCUMENT_PAGES: nat := MAX_PAGES_PER_PASS

  /** One pass as Re-scan needs it undone. */
  datatype AcceptedPass = AcceptedPass(sink: SpooledPageSink, pages: nat, kept: int, rejected: nat, cap: Option<PassCap>)

  /** What one standing pass brought: the pages it scanned, and which of them were skipped. */
  datatype StandingPass =
    StandingPass(number: nat, sink: SpooledPageSink, pages: seq<PageRecord>, skipped: seq<nat>, rejected: nat, cap: Option<PassCap>)

  /** The passes that stand, in the order they were accepted. */
  datatype History = Nothing | Adding(before: History, last: StandingPass)

  /** The turns of a run: the pass that was accepted, if one was, and the choice after it, if there was one. */
  datatype Turns = NoTurns | Turn(before: Turns, accepted: Option<StandingPass>, choice: Option<PassAnswer>)

  /** What the turns make: each accepted pass stands, until a Re-scan right after it takes it back. */
  ghost function Built(turns: Turns): History {
    match turns
    case NoTurns => Nothing
    case Turn(before, None, _) => Built(before)
    case Turn(before, Some(pass), choice) => if choice == Some(Rescan) then Built(before) else Adding(Built(before), pass)
  }

  /** What was chosen in the turns. */
  ghost function ChoicesOf(turns: Turns): Choices {
    match turns
    case NoTurns => NoChoice
    case Turn(before, _, None) => ChoicesOf(before)
    case Turn(before, _, Some(answer)) => Chose(ChoicesOf(before), answer)
  }

  /** Every page of the standing passes, skipped ones included, in scan order. */
  function BoundPages(history: History): seq<PageRecord> {
    if history.Nothing? then []
    else BoundPages(history.before) + history.last.pages
  }

  function Shifted(positions: seq<nat>, offset: nat): (r: seq<nat>)
    ensures |r| == |positions| && forall i :: 0 <= i < |r| ==> r[i] == offset + positions[i]
  {
    seq(|positions|, i requires 0 <= i < |positions| => offset + positions[i])
  }

  /** The positions, within the document, of the pages skipped in each pass. */
  function BoundSkips(history: History): seq<nat> {
    if history.Nothing? then []
    else
      var rest := history.before;
      BoundSkips(rest) + Shifted(history.last.skipped, |BoundPages(rest)|)
  }

  function BoundRejects(history: History): nat {
    if history.Nothing? then 0
    else BoundRejects(history.before) + history.last.rejected
  }

  function AsAccepted(pass: StandingPass): AcceptedPass {
    AcceptedPass(pass.sink, |pass.pages|, |pass.pages| - |pass.skipped|, pass.rejected, pass.cap)
  }

  /** What is kept of each standing pass, for Re-scan. */
  function BoundPasses(history: History): seq<AcceptedPass> {
    if history.Nothing? then []
    else
      var last := history.last;
      BoundPasses(history.before) + [AsAccepted(last)]
  }

  /** The pages of each standing pass that were not skipped in it, one pass after another. */
  function BoundKept(history: History): seq<PageRecord> {
    if history.Nothing? then []
    else
      var last := history.last;
      BoundKept(history.before) + Kept(last.pages, last.skipped)
  }

  function KeptTotal(history: History): int {
    if history.Nothing? then 0
    else
      var last := history.last;
      KeptTotal(history.before) + |last.pages| - |last.skipped|
  }

  ghost predicate SkipsFit(history: History) {
    history.Nothing? || (
      var last := history.last;
      Positions(last.skipped, |last.pages|) && SkipsFit(history.before))
  }

  /** The document's removed positions ascend within the document. */
  lemma {:induction false} BoundSkipsFit(history: History)
    requires SkipsFit(history)
    ensures Positions(BoundSkips(history), |BoundPages(history)|)
  {
    if history.Adding? {
      BoundSkipsFit(history.before);
    }
  }

  lemma {:induction false} KeptTotals(history: History)
    requires SkipsFit(history)
    ensures KeptTotal(history) == |BoundPages(history)| - |BoundSkips(history)| >= 0
  {
    if history.Adding? {
      var last := history.last;
      KeptTotals(history.before);
      KeptCounts(last.pages, last.skipped);
    }
  }

  lemma {:induction false} KeptAppends(pages: seq<PageRecord>, more: seq<PageRecord>, removed: seq<nat>, skipped: seq<nat>)
    requires Positions(removed, |pages|) && 0 !in skipped
    ensures Kept(pages + more, removed + Shifted(skipped, |pages|)) == Kept(pages, removed) + Kept(more, skipped)
  {
    var all := removed + Shifted(skipped, |pages|);
    if more == [] {
      assert pages + more == pages;
      forall i | 1 <= i <= |pages| ensures i in removed <==> i in all {
        ShiftedHolds(skipped, |pages|, i);
      }
      KeptFrame(pages, removed, all);
    } else {
      var last := |more| - 1;
      assert (pages + more)[..|pages + more| - 1] == pages + more[..last];
      ShiftedHolds(skipped, |pages|, |pages + more|);
      assert |pages + more| !in removed;
      KeptAppends(pages, more[..last], removed, skipped);
    }
  }

  lemma ShiftedHolds(positions: seq<nat>, offset: nat, i: nat)
    ensures i in Shifted(positions, offset) <==> i >= offset && i - offset in positions
  {
    var shifted := Shifted(positions, offset);
    if i >= offset && i - offset in positions {
      var k :| 0 <= k < |positions| && positions[k] == i - offset;
      assert shifted[k] == i;
    }
  }

  /**
   * What a finished multi-page document uploads: exactly the pages of each standing pass that
   * were not skipped when that pass was asked about, in scan order.
   */
  lemma {:induction false} KeptIsBound(history: History)
    requires SkipsFit(history)
    ensures Kept(BoundPages(history), BoundSkips(history)) == BoundKept(history)
  {
    if history.Adding? {
      var rest, last := history.before, history.last;
      KeptIsBound(rest);
      BoundSkipsFit(rest);
      KeptAppends(BoundPages(rest), last.pages, BoundSkips(rest), last.skipped);
    }
  }

  /** `[position for position in removed if position <= first]`. */
  function UpTo(removed: seq<nat>, first: nat): seq<nat> {
    if removed == [] then []
    else (if removed[0] <= first then [removed[0]] else []) + UpTo(removed[1..], first)
  }

  lemma {:induction false} UpToSplits(a: seq<nat>, b: seq<nat>, first: nat)
    requires forall i :: 0 <= i < |a| ==> a[i] <= first
    requires forall i :: 0 <= i < |b| ==> b[i] > first
    ensures UpTo(a + b, first) == a
  {
    if a == [] {
      assert a + b == b;
      if b != [] {
        assert b[1..] == [] + b[1..];
        UpToSplits([], b[1..], first);
      }
    } else {
      assert (a + b)[1..] == a[1..] + b;
      UpToSplits(a[1..], b, first);
    }
  }

  /** Why a document finished without the operator pressing Finish. */
  datatype FinishWarning =
    | NobodyAnswered(kept: int)
    | NobodyAnsweredBlanks(kept: int)
    | PassCapped(cap: PassCap, kept: int)
    | DocumentCapped(kept: int)

  /** The pages of a pass are its own sink's files, numbered as they were fed. */
  ghost predicate PassFiles(t: StandingPass) {
    forall i :: 0 <= i < |t.pages| ==> t.pages[i].path == PageFile(Numbered(t.number), i + 1)
  }

  /**
   * The passes stand in the order they were started, the last of them no later than `started`,
   * and each holds its own files.
   */
  ghost predicate Standing(history: History, started: nat) {
    history.Nothing? || (
      var last := history.last;
      && 0 < last.number <= started
      && 0 < |last.pages| <= MAX_PAGES_PER_PASS
      && PassFiles(last)
      && Standing(history.before, last.number - 1))
  }

  lemma StandingWithin(history: History, started: nat, later: nat)
    requires Standing(history, started) && started <= later
    ensures Standing(history, later)
  {
  }

  function PathSet(records: seq<PageRecord>): set<Path> {
    set r | r in records :: r.path
  }

  lemma PathSetAppends(a: seq<PageRecord>, b: seq<PageRecord>)
    ensures PathSet(a + b) == PathSet(a) + PathSet(b)
  {
  }

  /** Every file of a document is a page of one of the passes started. */
  lemma {:induction false} BoundFiles(history: History, started: nat)
    requires Standing(history, started)
    ensures forall p | p in PathSet(BoundPages(history)) ::
              p.SpoolFile? && !p.entry.partial && p.entry.pass.Numbered? && p.entry.pass.number <= started
  {
    if history.Adding? {
      var rest, last := history.before, history.last;
      BoundFiles(rest, last.number - 1);
      PathSetAppends(BoundPages(rest), last.pages);
    }
  }

  /** The files of the last pass are not files of an earlier one. */
  lemma LastFilesApart(history: History, started: nat)
    requires history.Adding? && Standing(history, started)
    ensures PathSet(history.last.pages) !! PathSet(BoundPages(history.before))
  {
    BoundFiles(history.before, history.last.number - 1);
  }

  function Entries(records: seq<PageRecord>): seq<Entry>
    requires forall r | r in records :: r.path.SpoolFile?
  {
    seq(|records|, i requires 0 <= i < |records| => records[i].path.entry)
  }

  /** A document is in the order of its passes and their pages, which fit their padding up to 99999 passes. */
  lemma {:induction false} DocumentIsInOrder(history: History, started: nat)
    requires Standing(history, started)
    ensures forall r | r in BoundPages(history) :: r.path.SpoolFile?
    ensures InDocumentOrder(Entries(BoundPages(history)))
    ensures started <= 99999 ==> forall e | e in Entries(BoundPages(history)) :: Fits(e)
  {
    BoundFiles(history, started);
    forall r | r in BoundPages(history) ensures r.path.SpoolFile? {
      assert r.path in PathSet(BoundPages(history));
    }
    if history.Adding? {
      var rest, last := history.before, history.last;
      DocumentIsInOrder(rest, last.number - 1);
      BoundFiles(rest, last.number - 1);
      var all, before := Entries(BoundPages(history)), Entries(BoundPages(rest));
      assert all == before + Entries(last.pages);
      forall i, j | 0 <= i < j < |all| ensures Earlier(all[i], all[j]) {
        if i < |before| <= j {
          assert BoundPages(rest)[i].path in PathSet(BoundPages(rest));
        }
      }
    }
  }

  /** A listing of exactly the files of these pages has the entries of these pages. */
  lemma ListsTheseFiles(records: seq<PageRecord>, files: FileMap, listing: seq<Entry>)
    requires forall r | r in records :: r.path.SpoolFile?
    requires SpoolPart(files).Keys == PathSet(records) && IsListing(files, listing)
    ensures forall e :: e in listing <==> e in Entries(records)
  {
    var entries := Entries(records);
    forall e ensures e in listing <==> e in entries {
      assert e in listing <==> SpoolFile(e) in SpoolPart(files);
      if SpoolFile(e) in PathSet(records) {
        var i :| 0 <= i < |records| && records[i].path == SpoolFile(e);
        assert entries[i] == e;
      }
      if e in entries {
        var i :| 0 <= i < |entries| && entries[i] == e;
        assert records[i].path == SpoolFile(e);
      }
    }
  }

  /** The lists a document keeps are what its standing passes make them. */
  ghost predicate Bound(records: seq<PageRecord>, removed: seq<nat>, passes: seq<AcceptedPass>, unreadable: nat,
                        history: History)
  {
    && records == BoundPages(history)
    && removed == BoundSkips(history)
    && passes == BoundPasses(history)
    && unreadable == BoundRejects(history)
  }

  lemma TakingBinds(history: History, pass: StandingPass)
    requires SkipsFit(history) && Positions(pass.skipped, |pass.pages|)
    ensures SkipsFit(Adding(history, pass))
    ensures Bound(BoundPages(history) + pass.pages, BoundSkips(history) + Shifted(pass.skipped, |BoundPages(history)|),
                  BoundPasses(history) + [AsAccepted(pass)], BoundRejects(history) + pass.rejected, Adding(history, pass))
  {
  }

  /** Taking the last pass back leaves what the passes before it bound, exactly. */
  lemma TakingBackBinds(history: History)
    requires history.Adding? && SkipsFit(history)
    ensures
      var last, rest := history.last, history.before;
      var first := |BoundPages(history)| - |last.pages|;
      && SkipsFit(rest)
      && first >= 0
      && BoundPasses(history) == BoundPasses(rest) + [AsAccepted(last)]
      && last.rejected <= BoundRejects(history)
      && Bound(BoundPages(history)[..first], UpTo(BoundSkips(history), first), BoundPasses(rest),
               BoundRejects(history) - last.rejected, rest)
      && |BoundPages(history)| - |BoundSkips(history)|
           == |BoundPages(rest)| - |BoundSkips(rest)| + |last.pages| - |last.skipped|
  {
    var last, rest := history.last, history.before;
    BoundSkipsFit(rest);
    KeptCounts(last.pages, last.skipped);
    UpToSplits(BoundSkips(rest), Shifted(last.skipped, |BoundPages(rest)|), |BoundPages(rest)|);
  }

  ghost function SinksOf(history: History): set<SpooledPageSink> {
    match history
    case Nothing => {}
    case Adding(before, last) => SinksOf(before) + {last.sink}
  }

  /** The sinks of the passes still hold what the passes brought. */
  ghost predicate Hold(history: History)
    reads SinksOf(history)`records
  {
    match history
    case Nothing => true
    case Adding(before, last) => last.sink.records == last.pages && Hold(before)
  }

  /** A pass that ended keeps its records: no later pass writes to its sink. */
  twostate lemma {:induction false} HoldStays(history: History)
    requires old(Hold(history))
    requires forall s: SpooledPageSink {:trigger s.records} | old(allocated(s)) :: s.records == old(s.records)
    ensures Hold(history)
  {
    if history.Adding? {
      HoldStays(history.before);
    }
  }

  class MultiPageDocument {
    var records: seq<PageRecord>
    var removed: seq<nat>
    var passes: seq<AcceptedPass>
    var unreadable: nat
    var warnings: seq<FinishWarning>
    var prompts: nat
    var started: nat
    /** The passes that stand: accepted, and not taken back since. */
    ghost var history: History

    constructor ()
      ensures records == [] && removed == [] && passes == [] && unreadable == 0
      ensures warnings == [] && prompts == 0 && started == 0 && history == Nothing
    {
      records, removed, passes, unreadable, warnings := [], [], [], 0, [];
      prompts, started, history := 0, 0, Nothing;
    }

    /** Between passes, every field is what the standing passes make it. */
    ghost predicate Valid()
      reads this`records, this`removed, this`passes, this`unreadable, this`started, this`history
    {
      Standing(history, started) && SkipsFit(history) && Bound(records, removed, passes, unreadable, history)
    }

    /** The sink of each standing pass still holds its pages. */
    ghost predicate SinksHold()
      reads this`history, SinksOf(history)`records
    {
      Hold(history)
    }

    /** How many pages the document holds: accepted and not skipped. */
    function KeptCount(): int
      reads this`records, this`removed
    {
      |records| - |removed|
    }

    lemma Totals()
      requires Valid()
      ensures Positions(removed, |records|)
      ensures KeptCount() == KeptTotal(history) >= 0
    {
      BoundSkipsFit(history);
      KeptTotals(history);
    }

    /** The pass just scanned may stand: its number is the last one given out. */
    ghost predicate CanTake(sink: SpooledPageSink, batch: ScanBatch, skipped: seq<nat>)
      reads this`started, this`history, sink
    {
      && batch.pages == sink.records
      && 0 < |batch.pages| <= MAX_PAGES_PER_PASS
      && sink.Valid()
      && sink.pass == Numbered(started)
      && Positions(skipped, |batch.pages|)
      && 0 < started
      && Standing(history, started - 1)
    }

    /** The document's part of `_accept_pass`: its lists grow one after another. */
    method Take(sink: SpooledPageSink, batch: ScanBatch, skipped: seq<nat>, signal: Interruption) returns (r: Step<()>)
      requires Valid() && CanTake(sink, batch, skipped) && !signal.settled
      modifies this`records, this`removed, this`passes, this`unreadable, this`history, signal`received, signal`deferred
      ensures r.Value? ==> Valid() && history == Adding(old(history), TakenPass(sink, batch, skipped))
      ensures r.Raised? ==> r.ending == Interrupted
    {
      ghost var pass := TakenPass(sink, batch, skipped);
      TakingBinds(history, pass);
      var before := |records|;
      if { case !signal.received => :- signal.Land(); case true => }
      removed := removed + Shifted(skipped, before);
      if { case !signal.received => :- signal.Land(); case true => }
      records := records + batch.pages;
      if { case !signal.received => :- signal.Land(); case true => }
      passes := passes + [AcceptedPass(sink, |batch.pages|, |batch.pages| - |skipped|, batch.rejected, batch.cap)];
      if { case !signal.received => :- signal.Land(); case true => }
      unreadable := unreadable + batch.rejected;
      if { case !signal.received => :- signal.Land(); case true => }
      history := Adding(history, pass);
      return Value(());
    }

    ghost function TakenPass(sink: SpooledPageSink, batch: ScanBatch, skipped: seq<nat>): StandingPass
      reads this`started
    {
      StandingPass(started, sink, batch.pages, skipped, batch.rejected, batch.cap)
    }

    /** The document's part of `_discard_last_pass`, statement by statement. */
    method Shrink(signal: Interruption) returns (r: Step<AcceptedPass>)
      requires passes != [] && passes[|passes| - 1].pages <= |records| && passes[|passes| - 1].rejected <= unreadable
      requires !signal.settled
      modifies this`records, this`removed, this`passes, this`unreadable, signal`received, signal`deferred
      ensures r.Value? ==>
                && r.value == old(passes)[|old(passes)| - 1]
                && passes == old(passes)[..|old(passes)| - 1]
                && records == old(records)[..|old(records)| - r.value.pages]
                && removed == UpTo(old(removed), |records|)
                && unreadable == old(unreadable) - r.value.rejected
      ensures r.Raised? ==> r.ending == Interrupted
    {
      var last := passes[|passes| - 1];
      if { case !signal.received => :- signal.Land(); case true => }
      passes := passes[..|passes| - 1];
      if { case !signal.received => :- signal.Land(); case true => }
      var first := |records| - last.pages;
      records := records[..first];
      if { case !signal.received => :- signal.Land(); case true => }
      removed := UpTo(removed, first);
      if { case !signal.received => :- signal.Land(); case true => }
      unreadable := unreadable - last.rejected;
      return Value(last);
    }

    /** What cutting the last pass off every list leaves. */
    lemma CutsLast()
      requires Valid() && history.Adding?
      ensures
        var last, rest := history.last, history.before;
        && passes != [] && passes[|passes| - 1] == AsAccepted(last)
        && |last.pages| <= |records| && last.rejected <= unreadable
        && Standing(rest, started) && SkipsFit(rest)
        && Bound(records[..|records| - |last.pages|], UpTo(removed, |records| - |last.pages|), passes[..|passes| - 1],
                 unreadable - last.rejected, rest)
    {
      var last, rest := history.last, history.before;
      TakingBackBinds(history);
      assert passes == BoundPasses(rest) + [AsAccepted(last)];
      assert passes[..|passes| - 1] == BoundPasses(rest);
      assert Standing(rest, started) by {
        StandingWithin(rest, last.number - 1, started);
      }
    }

    /** What the last accept did is undone, exactly. */
    method TakeBack(signal: Interruption) returns (r: Step<AcceptedPass>)
      requires Valid() && history.Adding? && !signal.settled
      modifies this`records, this`removed, this`passes, this`unreadable, this`history, signal`received, signal`deferred
      ensures r.Value? ==> Valid() && history == old(history).before
      ensures r.Value? ==> r.value == AsAccepted(old(history).last)
      ensures r.Raised? ==> r.ending == Interrupted
    {
      CutsLast();
      var last :- Shrink(signal);
      history := history.before;
      return Value(last);
    }
  }
}
