/** One scan run: acquisition, delivery, and the one guard over all of it. */
module Pipeline {
  import opened Outcomes
  import opened Signals
  import opened FileSystem
  import opened SpoolNames
  import opened Pages
  import opened Spool
  import opened MultiPage
  import opened Ledger
  import opened Scanner
  import opened Operators
  import opened Preservation
  import opened Duplex
  import opened Delivery
  import PaperlessUpload
  import opened Recovery

  /** A pass as `_scan_pass` leaves it: failed and thrown away, or waiting to be decided about. */
  datatype Scanned = FailedPass(fault: Fault) | Scanned(sink: SpooledPageSink, batch: ScanBatch)

  /** How one pass of a multi-page document ended. */
  datatype Decision = PassFailed(fault: Fault) | ThrownAway | Accepted(timedOut: bool)

  /** The one pass in flight is still registered, or it is forgotten. */
  ghost predicate Forgotten(before: seq<Registered>, flightBefore: seq<Pass>, after: seq<Registered>, flight: seq<Pass>) {
    (after == before && flight == flightBefore) || (after == [] && flight == [])
  }

  lemma {:induction false} InterleavedFiles(fronts: seq<PageRecord>, backs: seq<PageRecord>)
    requires |fronts| == |backs|
    ensures PathSet(Interleaved(fronts, backs)) == PathSet(fronts) + PathSet(backs)
  {
    if fronts != [] {
      var last := |fronts| - 1;
      InterleavedFiles(fronts[..last], backs[1..]);
      assert fronts == fronts[..last] + [fronts[last]] && backs == [backs[0]] + backs[1..];
      PathSetAppends(fronts[..last], [fronts[last]]);
      PathSetAppends([backs[0]], backs[1..]);
      PathSetAppends(Interleaved(fronts[..last], backs[1..]), [fronts[last], backs[0]]);
      assert PathSet([fronts[last], backs[0]]) == PathSet([fronts[last]]) + PathSet([backs[0]]);
    }
  }

  /** Both passes of a mismatched manual duplex run. */
  datatype DuplexMismatch = DuplexMismatch(fronts: seq<PageRecord>, backs: seq<PageRecord>, unreadable: nat, backsCap: Option<PassCap>)

  /** What acquisition produced. */
  datatype Acquired = OneBatch(batch: ScanBatch) | Halves(mismatch: DuplexMismatch) | PassByPass(document: MultiPageDocument)

  /** Whether the two passes are delivered as two halves. */
  predicate Splits(front: ScanBatch, back: ScanBatch) {
    Split(|front.pages|, |back.pages|, front.rejected, back.rejected, back.cap.Some?)
  }

  /** What the two passes of a manual duplex run become. */
  ghost predicate Combines(acquired: Acquired, front: ScanBatch, back: ScanBatch) {
    && front.pages != []
    && if front.cap.Some? then acquired == OneBatch(front)
       else
         && back.pages != []
         && if Splits(front, back) then
              acquired == Halves(DuplexMismatch(front.pages, back.pages, front.rejected + back.rejected, back.cap))
            else
              acquired == OneBatch(ScanBatch(Interleaved(front.pages, back.pages), front.rejected + back.rejected, None))
  }

  datatype Outcome = Success | Fallback

  datatype ScanResult = ScanResult(outcome: Outcome, scanned: nat, uploaded: int, removedPositions: seq<nat>)

  /** A manual duplex run made this of what its scanner returned for pass A and for pass B. */
  ghost predicate CombinesBatches(acquired: Acquired, batches: Batches, front: ScanBatch, back: ScanBatch) {
    && Combines(acquired, front, back)
    && batches == DuplexBatches(front, back)
  }

  /** What the scanner returned in a manual duplex run. */
  ghost function DuplexBatches(front: ScanBatch, back: ScanBatch): Batches {
    var passA := Batched(NoBatch, Returned(SpoolNames.PassA, front));
    if front.cap.Some? then passA else Batched(passA, Returned(SpoolNames.PassB, back))
  }

  /** The passes of a manual duplex run, as the guard would keep them. */
  ghost function DuplexFlight(front: ScanBatch, back: ScanBatch): seq<Pass> {
    if front.cap.Some? then [Pass(FrontsPart, front.pages)] else [Pass(FrontsPart, front.pages)] + [Pass(BacksPart, back.pages)]
  }

  /**
   * A signal that lands once pass B has returned, and before its unread sheets are counted: the
   * guard then says by their page numbers which backs belong to which fronts, although a sheet
   * was lost.
   */
  lemma LateSignalNamesPages(front: ScanBatch, back: ScanBatch)
    requires front.cap.None? && front.rejected == 0 && back.rejected > 0 && 0 < |back.pages| < |front.pages|
    ensures RejectsIn(DuplexBatches(front, back)) > 0 && Counted(DuplexBatches(front, back), 0, true)
    ensures PassPairing(DuplexFlight(front, back), 0)
              == [BacksStartAt(|front.pages| - |back.pages| + 1, |back.pages|, |front.pages|)]
  {
    var passA, passB := Pass(FrontsPart, front.pages), Pass(BacksPart, back.pages);
    var flight := [passA] + [passB];
    assert flight[1..] == [passB] && flight[1..][1..] == [];
    assert NonEmpty([passB]) == [passB] && NonEmpty(flight) == [passA] + [passB];
    assert DuplexFlight(front, back) == flight && NonEmpty(flight)[1..] == [passB];
    assert CountOf(NonEmpty(flight), FrontsPart) == |front.pages|;
    assert CountOf([passB], BacksPart) == |back.pages| && CountOf(NonEmpty(flight), BacksPart) == |back.pages|;
  }

  /** The pages acquired in one go. */
  ghost function AcquiredPages(acquired: Acquired): seq<PageRecord> {
    match acquired
    case OneBatch(batch) => batch.pages
    case Halves(mismatch) => mismatch.fronts + mismatch.backs
    case PassByPass(_) => []
  }

  ghost function AcquiredFiles(acquired: Acquired): set<Path> {
    PathSet(AcquiredPages(acquired))
  }

  /** A sink's pages each have a file of their own. */
  lemma {:induction false} SinkCount(records: seq<PageRecord>, pass: Label)
    requires forall i :: 0 <= i < |records| ==> records[i].path == PageFile(pass, i + 1)
    ensures |PathSet(records)| == |records|
  {
    if records == [] {
      assert PathSet(records) == {};
    } else {
      var last := |records| - 1;
      SinkCount(records[..last], pass);
      assert records == records[..last] + [records[last]];
      PathSetAppends(records[..last], [records[last]]);
      assert PathSet([records[last]]) == {records[last].path};
      assert records[last].path !in PathSet(records[..last]);
    }
  }

  /** The files of the last pass are those that bear its number, and no other pass has them. */
  lemma LastFiles(history: History, started: nat)
    requires history.Adding? && Standing(history, started)
    ensures
      var all, rest := PathSet(BoundPages(history)), PathSet(BoundPages(history.before));
      var gone := PathSet(history.last.pages);
      all == rest + gone && rest !! gone && FilesOf(all, Numbered(history.last.number)) == gone
  {
    var rest, last := history.before, history.last;
    LastFilesApart(history, started);
    BoundFiles(rest, last.number - 1);
    PathSetAppends(BoundPages(rest), last.pages);
    forall p | p in PathSet(last.pages) ensures OfPass(p, {Numbered(last.number)}) {
      var i :| 0 <= i < |last.pages| && last.pages[i].path == p;
    }
  }

  /** What the scanner returned for a standing pass. */
  ghost function AsReturned(pass: StandingPass): Returned {
    Returned(Numbered(pass.number), ScanBatch(pass.pages, pass.rejected, pass.cap))
  }

  ghost function ReturnedFor(history: History): set<Returned> {
    match history
    case Nothing => {}
    case Adding(before, last) => ReturnedFor(before) + {AsReturned(last)}
  }

  /** Each of these passes is as the scanner returned it. */
  ghost predicate FromScanner(history: History, batches: Batches) {
    ReturnedFor(history) <= Returns(batches)
  }

  lemma PassIsWhole(pass: StandingPass)
    requires PassFiles(pass)
    ensures WholePages(PathSet(pass.pages)) == PathSet(pass.pages)
  {
    forall p | p in PathSet(pass.pages) ensures p.SpoolFile? && !p.entry.partial {
      var i :| 0 <= i < |pass.pages| && pass.pages[i].path == p;
    }
  }

  /** Two sinks of different labels hold as many files as pages. */
  lemma SinksCount(one: seq<PageRecord>, a: Label, two: seq<PageRecord>, b: Label)
    requires forall i :: 0 <= i < |one| ==> one[i].path == PageFile(a, i + 1)
    requires forall i :: 0 <= i < |two| ==> two[i].path == PageFile(b, i + 1)
    requires a != b
    ensures |PathSet(one) + PathSet(two)| == |one| + |two|
  {
    SinkCount(one, a);
    SinkCount(two, b);
    assert PathSet(one) !! PathSet(two);
  }

  /** How a run makes PDFs of the pages it acquired. */
  datatype Plan =
    | OneDocument(pages: seq<PageRecord>, removed: seq<nat>)
    | PassesBound(history: History)
    | TwoHalves(fronts: seq<PageRecord>, backs: seq<PageRecord>)
  {
    /** Every page, blank ones included. */
    ghost function Pages(): seq<PageRecord> {
      match this
      case OneDocument(pages, _) => pages
      case PassesBound(history) => BoundPages(history)
      case TwoHalves(fronts, backs) => fronts + backs
    }

    /** The positions of the pages left out. */
    ghost function Removed(): seq<nat> {
      match this
      case OneDocument(_, removed) => removed
      case PassesBound(history) => BoundSkips(history)
      case TwoHalves(_, _) => []
    }

    /** The pages uploaded, in order. */
    ghost function Keeps(): seq<PageRecord> {
      match this
      case OneDocument(pages, removed) => Kept(pages, removed)
      case PassesBound(history) => BoundKept(history)
      case TwoHalves(fronts, backs) => fronts + Reversed(backs)
    }
  }

  /** The PDFs of a plan, each with the images of its pages in order, the backs in sheet order. */
  ghost function Uploads(plan: Plan, owed: map<Path, Image>): map<Path, seq<Image>>
    requires PathSet(plan.Pages()) <= owed.Keys
  {
    match plan
    case TwoHalves(fronts, backs) =>
      PathSetAppends(fronts, backs);
      map[AssembledPdf(FrontsPart) := ImagesOwed(owed, fronts), AssembledPdf(BacksPart) := Reversed(ImagesOwed(owed, backs))]
    case _ =>
      UploadsOwed(plan);
      map[AssembledPdf(WholePart) := ImagesOwed(owed, plan.Keeps())]
  }

  lemma UploadsOwed(plan: Plan)
    ensures PathSet(plan.Keeps()) <= PathSet(plan.Pages())
  {
    match plan
    case OneDocument(pages, removed) => KeptFiles(pages, removed);
    case PassesBound(history) => BoundKeptFiles(history);
    case TwoHalves(fronts, backs) =>
      ReversedFiles(map[], backs);
      PathSetAppends(fronts, Reversed(backs));
      PathSetAppends(fronts, backs);
  }

  lemma {:induction false} BoundKeptFiles(history: History)
    ensures PathSet(BoundKept(history)) <= PathSet(BoundPages(history))
  {
    if history.Adding? {
      BoundKeptFiles(history.before);
      KeptFiles(history.last.pages, history.last.skipped);
      PathSetAppends(BoundKept(history.before), Kept(history.last.pages, history.last.skipped));
      PathSetAppends(BoundPages(history.before), history.last.pages);
    }
  }

  /**
   * The plan is made of what the scanner returned, as the request asked for it.  The passes of a
   * multi-page document stand in the order they were scanned, and are those that the choices
   * heard leave standing, every Re-scan having thrown one away.
   */
  ghost predicate Arranges(plan: Plan, history: PageHistory, answers: Answers, multiPage: bool, manualDuplex: bool)
    reads history`batches, history`turns, history`throws
  {
    if multiPage then
      && plan.PassesBound?
      && FromScanner(plan.history, history.batches) && InScanOrder(plan.history)
      && plan.history == Built(history.turns) && ChoicesOf(history.turns) == ChoicesIn(answers)
      && Rescans(history.throws) == RescansAsked(answers)
    else if manualDuplex then exists front, back :: DuplexPlan(plan, history.batches, front, back)
    else plan.OneDocument? && history.batches.Batched? && OnlyPassA(history.batches) && plan.pages == history.batches.last.batch.pages
  }

  /** Each pass has a higher number than those before it, and only files of its own. */
  ghost predicate InScanOrder(history: History) {
    exists started :: Standing(history, started)
  }

  /** One pass was returned, pass A. */
  ghost predicate OnlyPassA(batches: Batches)
    requires batches.Batched?
  {
    batches.before == NoBatch && batches.last.pass == SpoolNames.PassA
  }

  /** The fronts and the backs that the scanner returned, one after the other or as two halves. */
  ghost predicate DuplexPlan(plan: Plan, batches: Batches, front: ScanBatch, back: ScanBatch) {
    && batches == DuplexBatches(front, back)
    && if front.cap.Some? then plan.OneDocument? && plan.pages == front.pages
       else if Splits(front, back) then plan == TwoHalves(front.pages, back.pages)
       else plan.OneDocument? && plan.pages == Interleaved(front.pages, back.pages)
  }

  /** The positions that the filter removes. */
  ghost function Blanks(pages: seq<PageRecord>, detectsBlanks: bool, threshold: real): seq<nat> {
    if detectsBlanks then BlankPositions(pages, threshold) else []
  }

  /**
   * The plan covers each page owed, once, and leaves out exactly the pages that look blank, or of
   * each pass of a multi-page document those or none.
   */
  ghost predicate Covers(plan: Plan, owed: map<Path, Image>, detectsBlanks: bool, threshold: real) {
    && plan.Pages() != []
    && PathSet(plan.Pages()) == owed.Keys && |plan.Pages()| == |owed|
    && Positions(plan.Removed(), |plan.Pages()|)
    && (!plan.TwoHalves? ==> plan.Keeps() == Kept(plan.Pages(), plan.Removed()))
    && (plan.OneDocument? ==> plan.removed == Blanks(plan.pages, detectsBlanks, threshold))
    && (plan.PassesBound? ==> AllJudged(plan.history, detectsBlanks, threshold))
  }

  /** Of each pass nothing is skipped, or exactly the pages that look blank, where the profile looks for them. */
  ghost predicate AllJudged(history: History, detectsBlanks: bool, threshold: real) {
    match history
    case Nothing => true
    case Adding(before, last) =>
      AllJudged(before, detectsBlanks, threshold) && last.skipped in {[], Blanks(last.pages, detectsBlanks, threshold)}
  }

  /** The caution names the PDF, or the file under `failed/` that is the same PDF. */
  ghost predicate IsCautionOn(c: Caution, pdf: Path, pages: seq<Image>, files: FileMap) {
    || (c.CheckPages? && c.pdf == pdf)
    || (c.CheckFile? && pdf.AssembledPdf? && c.kept.FailedPdf? && c.kept.part == pdf.part
        && c.kept in files && files[c.kept] == pages)
  }

  /** Each PDF paperless-ngx took is cautioned about. */
  ghost predicate TakenCautioned(took: map<Path, seq<Image>>, cautions: seq<Caution>, files: FileMap) {
    forall p | p in took :: exists c | c in cautions :: IsCautionOn(c, p, took[p], files)
  }

  /** No caution says by their page numbers which backs belong to which fronts. */
  ghost predicate NamesNoPage(cautions: seq<Caution>) {
    forall c | c in cautions :: !c.BacksStartAt?
  }

  lemma DeliveryNamesNoPage(pdfs: seq<Path>, kept: seq<Path>, accepted: map<Path, How>)
    requires |kept| <= |pdfs|
    ensures NamesNoPage(DeliveryCautions(pdfs, kept, accepted))
  {
    FileCautionsCount(pdfs, kept, accepted);
    PageCautionsCount(pdfs[|kept|..], accepted);
  }

  /** A document's passes have as many files as pages. */
  lemma {:induction false} BoundCount(history: History, started: nat)
    requires Standing(history, started)
    ensures |PathSet(BoundPages(history))| == |BoundPages(history)|
  {
    if history.Adding? {
      BoundCount(history.before, history.last.number - 1);
      LastFiles(history, started);
      SinkCount(history.last.pages, Numbered(history.last.number));
    } else {
      assert PathSet(BoundPages(history)) == {};
    }
  }

  lemma TheirPdfs(pdfs: seq<Path>, files: FileMap)
    requires pdfs != [] && AllThere(pdfs, files)
    ensures Existing(pdfs, files) == pdfs && AnyExists(pdfs, files)
    ensures forall p | p in pdfs :: p in files && p.AssembledPdf?
  {
    AllThereAre(pdfs, files);
    AllExist(pdfs, files);
    assert pdfs[0] in pdfs;
  }

  /** What the result says is what the plan does. */
  ghost predicate Reports(result: ScanResult, plan: Plan) {
    && result.scanned == |plan.Pages()|
    && result.uploaded == |plan.Keeps()| == result.scanned - |result.removedPositions|
    && result.removedPositions == plan.Removed()
    && Positions(result.removedPositions, result.scanned)
  }

  /** The PDFs and what they hold. */
  ghost function Contents(pdfs: seq<Path>, files: FileMap): FileMap {
    map p | p in pdfs && p in files :: files[p]
  }

  lemma OneContent(pdf: Path, files: FileMap)
    requires pdf in files
    ensures Contents([pdf], files) == map[pdf := files[pdf]]
  {
  }

  lemma TwoContents(one: Path, two: Path, files: FileMap)
    requires one in files && two in files
    ensures Contents([one, two], files) == map[one := files[one], two := files[two]] == map[][one := files[one]][two := files[two]]
  {
  }

  /** The PDFs on record as this. */
  ghost function RecordedAs(accepted: map<Path, How>, how: How): set<Path> {
    set p | p in accepted && accepted[p] == how
  }

  class PipelineRun {
    const disk: Disk
    const signal: Interruption
    const ledger: SpoolLedger
    const artefacts: RunArtefacts
    const coordinator: PassCoordinator
    const flips: FlipCoordinator
    const paperless: PaperlessPort
    /** How many times this run has preserved what it had. */
    ghost var preservations: nat
    /** The positions of the pages left out of the PDF being delivered. */
    ghost var removed: seq<nat>
    /** What was outside the workspace when the run began. */
    ghost const outside: FileMap
    const detectsBlanks: bool
    const threshold: real

    constructor (disk: Disk, signal: Interruption, coordinator: PassCoordinator, flips: FlipCoordinator,
                 paperless: PaperlessPort, ghost history: PageHistory, detectsBlanks: bool, threshold: real)
      ensures this.disk == disk && this.signal == signal && this.coordinator == coordinator && this.flips == flips
      ensures this.paperless == paperless && ledger.history == history && outside == Outside(disk.files)
      ensures this.detectsBlanks == detectsBlanks && this.threshold == threshold
      ensures fresh(ledger) && fresh(artefacts)
      ensures ledger.passes == [] && ledger.flight == [] && ledger.unreadableSheets == 0
      ensures artefacts.stage == Acquiring && artefacts.document == [] && artefacts.pdfs == [] && artefacts.accepted == map[]
    {
      this.disk, this.signal, this.coordinator, this.flips := disk, signal, coordinator, flips;
      this.paperless, this.detectsBlanks, this.threshold := paperless, detectsBlanks, threshold;
      preservations, removed, outside := 0, [], Outside(disk.files);
      ledger := new SpoolLedger(history);
      artefacts := new RunArtefacts();
    }

    /** The pages the run owes its operator. */
    ghost function Owed(): map<Path, Image>
      reads ledger.history`recorded, ledger.history`throws
    {
      ledger.history.Owed()
    }

    /**
     * Each pass thrown away was re-scanned, no more of them than the operator asked for, or it
     * failed in a way the operator could put right, while the document kept a page; and no pass
     * failed that the scanner returned pages for.
     */
    ghost predicate Accounted()
      reads ledger.history`throws, ledger.history`failed, ledger.history`batches, coordinator`answers
    {
      && ledger.history.FailuresAreReal()
      && Excuses(ledger.history.throws) <= Retryable(ledger.history.failed)
      && Rescans(ledger.history.throws) <= RescansAsked(coordinator.answers)
    }

    /** One more pass may be thrown away, for this reason. */
    ghost predicate MayThrow(throw: Throw)
      reads ledger.history`throws, ledger.history`failed, ledger.history`batches, coordinator`answers
    {
      && Accounted()
      && (throw.Rescanned? ==> Rescans(ledger.history.throws) < RescansAsked(coordinator.answers))
      && (throw.Unusable? ==> throw.failure in Retryable(ledger.history.failed))
    }

    lemma StillAccounted(throw: Throw)
      requires MayThrow(throw)
      ensures
        var throws := Then(ledger.history.throws, throw);
        && Excuses(throws) <= Retryable(ledger.history.failed)
        && Rescans(throws) <= RescansAsked(coordinator.answers)
        && ThrownPasses(throws) == ThrownPasses(ledger.history.throws) + {throw.Pass()}
    {
    }

    /** The pass about to be scanned bears the last number given out, and no other pass does. */
    ghost predicate NewNumber(document: MultiPageDocument)
      reads document`started, document`history, ledger.history`throws, ledger.history`failed, ledger.history`batches
    {
      && 0 < document.started && Standing(document.history, document.started - 1)
      && ledger.history.Latest() < document.started
    }

    /**
     * At every step of an acquisition: each page the guard would keep has its whole file, and
     * each page nobody threw away is in the document or in a registered pass.
     */
    ghost predicate Guarded()
      reads ledger.history, coordinator`answers, ledger`flight, artefacts`document, artefacts`stage, artefacts`pdfs, artefacts`accepted
      reads disk`files, signal`settled
    {
      && Safe(Owed(), Referenced(), disk.files)
      && Accounted()
      && Outside(disk.files) == outside
      && artefacts.stage == Acquiring
      && artefacts.pdfs == []
      && artefacts.accepted == map[]
      && !signal.settled
    }

    /** Between passes, all three ledgers agree, and a calm run's spool is the document. */
    ghost predicate Between(document: MultiPageDocument)
      reads ledger.history, coordinator`answers, ledger`flight, ledger`passes, ledger`unreadableSheets
      reads artefacts`document, artefacts`stage, artefacts`pdfs, artefacts`accepted, disk, signal`settled
      reads document`records, document`removed, document`passes, document`unreadable, document`started, document`history
    {
      && Guarded()
      && ledger.passes == [] && ledger.flight == []
      && document.Valid()
      && artefacts.document == document.records
      && ledger.unreadableSheets == document.unreadable
      && ledger.history.Latest() <= document.started
      && Tidy(PathSet(document.records), disk.files, disk.faults == 0)
    }

    /** A pass is scanned and nobody has decided about it. */
    ghost predicate Undecided(document: MultiPageDocument, sink: SpooledPageSink)
      reads ledger.history, coordinator`answers, ledger`flight, ledger`passes, ledger`unreadableSheets
      reads artefacts`document, artefacts`stage, artefacts`pdfs, artefacts`accepted, disk, signal`settled
      reads document`records, document`removed, document`passes, document`unreadable, document`started, document`history, sink
    {
      && Guarded()
      && ledger.passes == [Registered(PartialPart, sink)] && ledger.flight == [Pass(PartialPart, sink.records)]
      && document.Valid()
      && artefacts.document == document.records
      && ledger.unreadableSheets == document.unreadable
      && Tidy(PathSet(document.records) + PathSet(sink.records), disk.files, disk.faults == 0)
      && sink.Valid()
      && sink.pass == Numbered(document.started)
      && |sink.records| <= MAX_PAGES_PER_PASS
      && 0 < document.started && Standing(document.history, document.started - 1)
      && ledger.history.Latest() <= document.started
    }

    /** Every Re-scan asked for has thrown its pass away. */
    ghost predicate Heeded()
      reads ledger.history`throws, coordinator`answers
    {
      Rescans(ledger.history.throws) == RescansAsked(coordinator.answers)
    }

    /** `_ask`: put a prompt to the operator, and end the run if told. */
    method Ask(prompt: PassPrompt) returns (r: Step<PassAnswer>)
      requires !signal.settled
      modifies coordinator`patience, coordinator`broken, coordinator`answers, signal`received, signal`deferred
      ensures coordinator.answers == old(coordinator.answers)
              || coordinator.answers == Heard(old(coordinator.answers), prompt.wait, coordinator.Last())
      ensures coordinator.answers == old(coordinator.answers) ==> r == Raised(Interrupted)
      ensures r.Value? ==> r.value == coordinator.Last() && r.value in prompt.offered - {Abort, StopAsked} + {TimedOut}
      ensures r.Raised? ==> r.ending in {Interrupted, Cancelled, Failed(BrokenPrompt), Failed(UnofferedAnswer)}
      ensures coordinator.answers != old(coordinator.answers) ==>
                && (r == Raised(Cancelled) <==> coordinator.Last() == Abort && Abort in prompt.offered && !coordinator.broken)
                && (r == Raised(Failed(BrokenPrompt)) <==> coordinator.Last() == Abort && Abort in prompt.offered && coordinator.broken)
                && (r == Raised(Interrupted) <==> coordinator.Last() == StopAsked)
                && (r == Raised(Failed(UnofferedAnswer)) <==> coordinator.Last() !in prompt.offered + EndingsNobodyOffers)
      ensures r.Value? ==> coordinator.patience < old(coordinator.patience)
      ensures coordinator.patience <= old(coordinator.patience)
    {
      if { case !signal.received => :- signal.Land(); case true => }
      var answer :- coordinator.Ask(prompt, signal);
      HeardMore(old(coordinator.answers), prompt.wait, answer);
      if answer !in prompt.offered && answer !in EndingsNobodyOffers {
        return Raised(Failed(UnofferedAnswer));
      }
      if answer == Abort {
        if coordinator.broken {
          return Raised(Failed(BrokenPrompt));
        }
        return Raised(Cancelled);
      }
      if answer == StopAsked {
        return Raised(Interrupted);
      }
      return Value(answer);
    }

    /** Every page a failing run would keep: the document's, and those of the passes in flight. */
    ghost function Referenced(): set<Path>
      reads ledger`flight, artefacts`document
    {
      PathSet(artefacts.document) + FlightFiles(ledger.flight)
    }

    /** A pass moves from the ledger into the document, and is in one of them throughout. */
    method HandOver(records: seq<PageRecord>, sink: SpooledPageSink, rejected: nat, ghost referenced: set<Path>)
      returns (r: Step<()>)
      requires Guarded() && |ledger.flight| == |ledger.passes|
      requires Referenced() == PathSet(records) + FlightFiles(ledger.flight) == referenced
      requires PathSet(records) + FlightFiles(FlightWithout(ledger.passes, ledger.flight, sink)) == referenced
      modifies ledger`passes, ledger`flight, ledger`unreadableSheets, artefacts`document, signal`received, signal`deferred
      ensures Guarded() && Referenced() == referenced
      ensures || (ledger.passes == old(ledger.passes) && ledger.flight == old(ledger.flight))
              || (ledger.passes == Without(old(ledger.passes), sink)
                  && ledger.flight == FlightWithout(old(ledger.passes), old(ledger.flight), sink))
      ensures r.Value? ==>
                && artefacts.document == records
                && ledger.passes == Without(old(ledger.passes), sink)
                && ledger.flight == FlightWithout(old(ledger.passes), old(ledger.flight), sink)
                && ledger.unreadableSheets == old(ledger.unreadableSheets) + rejected
      ensures r.Raised? ==> r.ending == Interrupted
    {
      if { case !signal.received => :- signal.Land(); case true => }
      ledger.unreadableSheets := ledger.unreadableSheets + rejected;
      if { case !signal.received => :- signal.Land(); case true => }
      artefacts.document := records;
      if { case !signal.received => :- signal.Land(); case true => }
      ledger.Forget(sink);
      if { case !signal.received => :- signal.Land(); case true => }
      return Value(());
    }

    /** Where the pages of a pass that joins the document are: in the ledger before, in the document after. */
    lemma PassJoins(document: MultiPageDocument, sink: SpooledPageSink)
      requires Undecided(document, sink)
      ensures Referenced() == Owed().Keys == PathSet(document.records + sink.records)
      ensures Owed().Keys + FlightFiles(ledger.flight) == Owed().Keys
      ensures Without(ledger.passes, sink) == [] && FlightWithout(ledger.passes, ledger.flight, sink) == []
    {
      OnePassFiles(Pass(PartialPart, sink.records));
      PathSetAppends(document.records, sink.records);
    }

    /** The document's part of `_accept_pass`: the guard keeps the pass by its sink meanwhile. */
    method TakePass(document: MultiPageDocument, sink: SpooledPageSink, batch: ScanBatch, skipped: seq<nat>)
      returns (r: Step<()>)
      requires Undecided(document, sink) && document.CanTake(sink, batch, skipped)
      modifies document`records, document`removed, document`passes, document`unreadable, document`history
      modifies signal`received, signal`deferred
      ensures Guarded()
      ensures r.Value? ==>
                && document.Valid()
                && document.history == Adding(old(document.history), document.TakenPass(sink, batch, skipped))
                && document.records == old(document.records) + batch.pages
                && document.unreadable == old(document.unreadable) + batch.rejected
      ensures r.Raised? ==> r.ending == Interrupted
    {
      r := document.Take(sink, batch, skipped, signal);
    }

    /** `_accept_pass`: every page of the pass joins the document, skipped ones included. */
    method AcceptPass(document: MultiPageDocument, sink: SpooledPageSink, batch: ScanBatch, skipped: seq<nat>)
      returns (r: Step<()>)
      requires Undecided(document, sink) && document.CanTake(sink, batch, skipped)
      modifies document`records, document`removed, document`passes, document`unreadable, document`history
      modifies ledger`passes, ledger`flight, ledger`unreadableSheets, artefacts`document, signal`received, signal`deferred
      ensures Guarded() && Owed() == old(Owed())
      ensures Forgotten(old(ledger.passes), old(ledger.flight), ledger.passes, ledger.flight)
      ensures r.Value? ==> Between(document)
      ensures r.Value? ==> document.history == Adding(old(document.history), document.TakenPass(sink, batch, skipped))
      ensures r.Raised? ==> r.ending == Interrupted
    {
      PassJoins(document, sink);
      ghost var owed := Owed();
      var _ :- TakePass(document, sink, batch, skipped);
      assert Owed() == owed;
      r := HandOver(document.records, sink, batch.rejected, owed.Keys);
    }

    /** The ledgers' part of `_discard_last_pass`: from the second store on, nobody owes the pass. */
    method GiveUp(records: seq<PageRecord>, rejected: nat, ghost gone: set<Path>, ghost pass: Label) returns (r: Step<()>)
      requires Guarded() && ledger.flight == [] && rejected <= ledger.unreadableSheets
      requires PathSet(artefacts.document) == PathSet(records) + gone && PathSet(records) !! gone
      requires FilesOf(PathSet(artefacts.document), pass) == gone
      requires MayThrow(Rescanned(pass))
      modifies ledger`unreadableSheets, ledger.history`throws, artefacts`document, signal`received, signal`deferred
      ensures Guarded()
      ensures ledger.history.throws in {old(ledger.history.throws), Then(old(ledger.history.throws), Rescanned(pass))}
      ensures r.Value? ==>
                && artefacts.document == records
                && ledger.unreadableSheets == old(ledger.unreadableSheets) - rejected
                && ledger.history.throws == Then(old(ledger.history.throws), Rescanned(pass))
                && Owed() == old(Owed()) - gone
      ensures r.Raised? ==> r.ending == Interrupted
    {
      SafeForgets(Owed(), {}, PathSet(artefacts.document), disk.files, gone);
      assert gone * Owed().Keys == gone;
      StillAccounted(Rescanned(pass));
      ThrowingForgets(ledger.history.recorded, ThrownPasses(ledger.history.throws), pass, gone);
      assert {} + PathSet(artefacts.document) == PathSet(artefacts.document);
      if { case !signal.received => :- signal.Land(); case true => }
      ledger.unreadableSheets := ledger.unreadableSheets - rejected;
      if { case !signal.received => :- signal.Land(); case true => }
      artefacts.document := records;
      ledger.history.throws := Then(ledger.history.throws, Rescanned(pass));
      assert {} + (PathSet(records) + gone - gone) == PathSet(records);
      if { case !signal.received => :- signal.Land(); case true => }
      return Value(());
    }

    /** `_discard_last_pass` up to the deletion of the files: undo the last accept. */
    method UndoLastPass(document: MultiPageDocument, ghost pass: StandingPass) returns (r: Step<AcceptedPass>)
      requires Between(document) && document.history.Adding? && pass == document.history.last
      requires Rescans(ledger.history.throws) < RescansAsked(coordinator.answers)
      modifies document, ledger`unreadableSheets, ledger.history`throws, artefacts`document, signal`received, signal`deferred
      ensures Guarded() && ledger.passes == [] && ledger.flight == []
      ensures ledger.history.throws in {old(ledger.history.throws), Then(old(ledger.history.throws), Rescanned(Numbered(pass.number)))}
      ensures r.Value? ==>
                && Owed() == old(Owed()) - PathSet(pass.pages)
                && ledger.history.throws == Then(old(ledger.history.throws), Rescanned(Numbered(pass.number)))
                && artefacts.document == document.records
                && document.Valid() && document.history == old(document.history).before
                && ledger.unreadableSheets == document.unreadable
                && PathSet(old(document.records)) == PathSet(document.records) + PathSet(pass.pages)
                && PathSet(document.records) !! PathSet(pass.pages)
                && r.value.sink == pass.sink
      ensures document.started == old(document.started) && document.warnings == old(document.warnings)
      ensures r.Raised? ==> r.ending == Interrupted
    {
      LastFiles(document.history, document.started);
      var last :- document.TakeBack(signal);
      var _ :- GiveUp(document.records, last.rejected, PathSet(pass.pages), Numbered(pass.number));
      return Value(last);
    }

    /**
     * `_discard_last_pass`: undo the last accept, and only once the guard no longer keeps the
     * pass delete its files.
     */
    method DiscardLastPass(document: MultiPageDocument) returns (r: Step<()>, ghost pass: StandingPass)
      requires Between(document) && document.history.Adding?
      requires document.history.last.sink.records == document.history.last.pages
      requires Rescans(ledger.history.throws) < RescansAsked(coordinator.answers)
      modifies document, ledger`unreadableSheets, ledger.history`throws, artefacts`document
      modifies disk`files, disk`faults, signal`received, signal`deferred
      ensures Guarded()
      ensures pass == old(document.history).last
      ensures ledger.history.throws in {old(ledger.history.throws), Then(old(ledger.history.throws), Rescanned(Numbered(pass.number)))}
      ensures r.Value? ==>
                && Between(document)
                && document.history == old(document.history).before
                && Owed() == old(Owed()) - PathSet(pass.pages)
                && ledger.history.throws == Then(old(ledger.history.throws), Rescanned(Numbered(pass.number)))
      ensures document.started == old(document.started) && document.warnings == old(document.warnings)
      ensures r.Raised? ==> r.ending == Interrupted
    {
      pass := document.history.last;
      assert WholePages(PathSet(pass.pages)) == PathSet(pass.pages) by {
        PassIsWhole(pass);
      }
      StillAccounted(Rescanned(Numbered(pass.number)));
      var last :- UndoLastPass(document, pass);
      r := DeleteFiles(last.sink.records);
    }

    /** The last statement of `_discard_last_pass`: a calm spool is left with the document alone. */
    method DeleteFiles(records: seq<PageRecord>) returns (r: Step<()>)
      requires Safe(Owed(), PathSet(artefacts.document), disk.files) && PathSet(records) !! PathSet(artefacts.document)
      requires !signal.settled && WholePages(PathSet(records)) == PathSet(records)
      modifies disk`files, disk`faults, signal`received, signal`deferred
      ensures Safe(Owed(), PathSet(artefacts.document), disk.files)
      ensures Outside(disk.files) == Outside(old(disk.files))
      ensures r.Value? ==>
                Tidy(PathSet(artefacts.document) + PathSet(records), old(disk.files), old(disk.faults) == 0) ==>
                Tidy(PathSet(artefacts.document), disk.files, disk.faults == 0)
      ensures disk.faults >= old(disk.faults)
      ensures r.Raised? ==> r.ending == Interrupted
    {
      ghost var before := disk.files;
      r := UnlinkPages(records, disk, signal, Owed(), PathSet(artefacts.document));
      if r.Value? && disk.faults == 0 && Tidy(PathSet(artefacts.document) + PathSet(records), before, true) {
        TidyWithout(PathSet(artefacts.document), PathSet(records), before, disk.files);
      }
    }

    /** The `try` of `_scan_pass`: restart SANE before every later pass, scan, and require a page. */
    method ReinitialiseAndScan(sink: SpooledPageSink, first: bool, ghost kept: int) returns (r: Step<ScanBatch>)
      requires sink.Valid() && sink.records == [] && !signal.settled
      requires Safe(Owed(), PathSet(artefacts.document), disk.files) && NoneOf(PathSet(artefacts.document), sink.pass)
      requires ledger.history.IsNew(sink.pass) && Accounted()
      modifies sink`records, ledger.history`recorded, ledger.history`batches, ledger.history`failed
      modifies disk, signal`received, signal`deferred
      ensures Accounted() && ledger.history.Latest() <= Higher(old(ledger.history.Latest()), NumberOf(sink.pass))
      ensures ledger.history.failed == WithFailure(old(ledger.history.failed), sink.pass, r, kept)
      ensures sink.Valid() && |sink.records| <= MAX_PAGES_PER_PASS
      ensures Safe(Owed(), PathSet(artefacts.document) + PathSet(sink.records), disk.files)
      ensures Outside(disk.files) == Outside(old(disk.files))
      ensures Owed() - PathSet(sink.records) == old(Owed())
      ensures old(ledger.history.recorded).Keys <= ledger.history.recorded.Keys
      ensures Returns(old(ledger.history.batches)) <= Returns(ledger.history.batches)
      ensures r.Value? ==> r.value.pages == sink.records != [] && Returned(sink.pass, r.value) in Returns(ledger.history.batches)
      ensures r.Raised? ==> PassEnds(r.ending) || r.ending == Failed(NoPages)
      ensures r.Value? || ReturnsToPrompt(r.ending) ==>
                Tidy(PathSet(artefacts.document), old(disk.files), true) ==>
                Tidy(PathSet(artefacts.document) + PathSet(sink.records), disk.files, true)
      ensures disk.faults >= old(disk.faults)
    {
      r := RestartAndScan(sink, first);
      ledger.history.failed := WithFailure(ledger.history.failed, sink.pass, r, kept);
    }

    /** Restart SANE before every pass but the first, scan, and require a page. */
    method RestartAndScan(sink: SpooledPageSink, first: bool) returns (r: Step<ScanBatch>)
      requires sink.Valid() && sink.records == [] && !signal.settled
      requires Safe(Owed(), PathSet(artefacts.document), disk.files) && NoneOf(PathSet(artefacts.document), sink.pass)
      requires sink.pass !in ThrownPasses(ledger.history.throws)
      modifies sink`records, ledger.history`recorded, ledger.history`batches, disk, signal`received, signal`deferred
      ensures sink.Valid() && |sink.records| <= MAX_PAGES_PER_PASS
      ensures Safe(Owed(), PathSet(artefacts.document) + PathSet(sink.records), disk.files)
      ensures Outside(disk.files) == Outside(old(disk.files))
      ensures Owed() - PathSet(sink.records) == old(Owed())
      ensures old(ledger.history.recorded).Keys <= ledger.history.recorded.Keys
      ensures Returns(old(ledger.history.batches)) <= Returns(ledger.history.batches)
      ensures ReturnedPasses(ledger.history.batches)
                == ReturnedPasses(old(ledger.history.batches)) + if r.Value? then {sink.pass} else {}
      ensures LatestReturned(ledger.history.batches) <= Higher(LatestReturned(old(ledger.history.batches)), NumberOf(sink.pass))
      ensures r.Value? ==> r.value.pages == sink.records != [] && Returned(sink.pass, r.value) in Returns(ledger.history.batches)
      ensures r.Raised? ==> PassEnds(r.ending) || r.ending == Failed(NoPages)
      ensures r.Value? || ReturnsToPrompt(r.ending) ==>
                Tidy(PathSet(artefacts.document), old(disk.files), true) ==>
                Tidy(PathSet(artefacts.document) + PathSet(sink.records), disk.files, true)
      ensures disk.faults >= old(disk.faults)
    {
      assert PathSet(artefacts.document) + PathSet([]) == PathSet(artefacts.document);
      assert Owed() - PathSet([]) == Owed();
      if !first {
        if { case !signal.received => :- signal.Land(); case true => }
        var restarted: bool := *;
        if !restarted {
          return Raised(Failed(ScannerFault));
        }
      }
      var batch :- ScanPages(sink, ledger.history, disk, signal, PathSet(artefacts.document));
      if batch.pages == [] {
        return Raised(Failed(NoPages));
      }
      return Value(batch);
    }

    /** The record once a scan ended like this: its failure is added, if it is one. */
    ghost function WithFailure(failed: Failures, pass: Label, scanned: Step<ScanBatch>, kept: int): Failures
      reads signal`received
    {
      if scanned.Raised? && scanned.ending.Failed? then Fell(failed, PassFailure(pass, scanned.ending.fault, kept, signal.received))
      else failed
    }

    /** Register a pass before it runs, so that a fault part way finds its sink. */
    method RegisterPass(document: MultiPageDocument) returns (sink: SpooledPageSink)
      requires Between(document) && NewNumber(document)
      modifies ledger`passes, ledger`flight
      ensures fresh(sink) && sink.records == [] && Undecided(document, sink) && NewNumber(document)
      ensures NoneOf(PathSet(document.records), sink.pass)
    {
      sink := new SpooledPageSink(Numbered(document.started));
      ledger.Register(PartialPart, sink);
      assert ledger.passes == [Registered(PartialPart, sink)] && ledger.flight == [Pass(PartialPart, [])];
      assert PathSet(document.records) + PathSet(sink.records) == PathSet(document.records);
      assert Referenced() == PathSet(document.records) by {
        OnePassFiles(ledger.flight[0]);
      }
      assert NoneOf(PathSet(document.records), sink.pass) by {
        PassesApart(document, sink);
      }
    }

    /** Scan a pass that is registered. */
    method ScanRegistered(document: MultiPageDocument, sink: SpooledPageSink) returns (r: Step<ScanBatch>)
      requires Undecided(document, sink) && NewNumber(document) && sink.records == []
      requires NoneOf(PathSet(document.records), sink.pass)
      modifies sink`records, ledger`flight, ledger.history`recorded, ledger.history`batches, ledger.history`failed
      modifies disk, signal`received, signal`deferred
      ensures Guarded() && ledger.flight == [Pass(PartialPart, sink.records)]
      ensures ledger.history.failed == WithFailure(old(ledger.history.failed), sink.pass, r, document.KeptCount())
      ensures Owed() - PathSet(sink.records) == old(Owed())
      ensures r.Value? || ReturnsToPrompt(r.ending) ==> Undecided(document, sink)
      ensures old(ledger.history.recorded).Keys <= ledger.history.recorded.Keys
      ensures Returns(old(ledger.history.batches)) <= Returns(ledger.history.batches)
      ensures r.Value? ==> document.CanTake(sink, r.value, []) && Returned(sink.pass, r.value) in Returns(ledger.history.batches)
      ensures r.Raised? ==> r.ending.Failed? || r.ending == Interrupted
      ensures disk.faults >= old(disk.faults)
    {
      OnePassFiles(ledger.flight[0]);
      ledger.history.NextIsNew(document.started);
      r := ReinitialiseAndScan(sink, document.started == 1, document.KeptCount());
      assert document.Valid();
      assert Accounted() && Safe(Owed(), PathSet(artefacts.document) + PathSet(sink.records), disk.files);
      Collect(document, sink);
    }

    /** From here the ledger's view of the pass is what its sink holds. */
    ghost method Collect(document: MultiPageDocument, sink: SpooledPageSink)
      requires Accounted() && Safe(Owed(), PathSet(artefacts.document) + PathSet(sink.records), disk.files)
      requires Outside(disk.files) == outside && artefacts.stage == Acquiring && artefacts.pdfs == [] && artefacts.accepted == map[]
      requires !signal.settled && ledger.passes == [Registered(PartialPart, sink)]
      requires document.Valid() && artefacts.document == document.records && ledger.unreadableSheets == document.unreadable
      requires sink.Valid() && sink.pass == Numbered(document.started) && |sink.records| <= MAX_PAGES_PER_PASS
      requires 0 < document.started && Standing(document.history, document.started - 1)
      requires ledger.history.Latest() <= document.started
      modifies ledger`flight
      ensures Guarded() && ledger.flight == [Pass(PartialPart, sink.records)]
      ensures Tidy(PathSet(document.records) + PathSet(sink.records), disk.files, disk.faults == 0) ==> Undecided(document, sink)
    {
      ledger.flight := [Pass(PartialPart, sink.records)];
      OnePassFiles(ledger.flight[0]);
    }

    /** The failure of the pass being scanned, as it is known when the pass ends. */
    ghost function FailureNow(document: MultiPageDocument, fault: Fault): PassFailure
      reads document`started, document`records, document`removed, signal`received
    {
      PassFailure(Numbered(document.started), fault, document.KeptCount(), signal.received)
    }

    /** The failure of this pass is the last on record. */
    ghost predicate Fails(document: MultiPageDocument, fault: Fault)
      reads document`started, document`records, document`removed, signal`received, ledger.history`failed
    {
      ledger.history.failed.Fell? && ledger.history.failed.last == FailureNow(document, fault)
    }

    /** The failure of a pass is one the operator is asked about. */
    ghost predicate Asks(failure: Option<PassFailure>) {
      failure.Some? && failure.value.kept > 0 && ReturnsToPrompt(Failed(failure.value.fault))
    }

    /** The `except` arms of `_scan_pass`: go back to the operator, who lost only this pass, or fail. */
    method FailPass(document: MultiPageDocument, sink: SpooledPageSink, ending: Ending)
      returns (r: Step<Scanned>, ghost failure: Option<PassFailure>)
      requires Guarded() && ledger.Mirrored() && 0 <= document.KeptCount()
      requires ReturnsToPrompt(ending) ==> Undecided(document, sink)
      requires ending.Failed? ==> Fails(document, ending.fault)
      modifies ledger`passes, ledger`flight, ledger.history`throws
      modifies disk`files, disk`faults, signal`received, signal`deferred
      ensures Guarded() && ledger.Mirrored()
      ensures ending == Interrupted ==> r == Raised(Interrupted)
      ensures failure == if ending.Failed? then Some(old(FailureNow(document, ending.fault))) else None
      ensures !Asks(failure) ==> r == Raised(ending) && ledger.history.throws == old(ledger.history.throws)
      ensures Asks(failure) ==>
                && ledger.history.throws in {old(ledger.history.throws), Then(old(ledger.history.throws), Unusable(failure.value))}
                && r in {Value(FailedPass(ending.fault)), Raised(Interrupted)}
                && (failure.value.signalled ==> r.Value? && signal.received)
      ensures r.Value? ==> r.value.FailedPass? && Between(document) && Owed() == old(Owed() - PathSet(sink.records))
      ensures disk.faults >= old(disk.faults)
    {
      failure := None;
      if ending.Failed? {
        failure := Some(FailureNow(document, ending.fault));
      }
      if document.KeptCount() == 0 || !ReturnsToPrompt(ending) {
        return Raised(ending), failure;
      }
      var _ :- ThrowAway(document, sink, Unusable(failure.value));
      r := Value(FailedPass(ending.fault));
    }

    /** A pass was scanned: it stays undecided, or it failed. */
    method ConcludePass(document: MultiPageDocument, sink: SpooledPageSink, scanned: Step<ScanBatch>)
      returns (r: Step<Scanned>, ghost failure: Option<PassFailure>)
      requires Guarded() && ledger.Mirrored() && 0 <= document.KeptCount()
      requires scanned.Value? || ReturnsToPrompt(scanned.ending) ==> Undecided(document, sink)
      requires scanned.Value? ==> document.CanTake(sink, scanned.value, [])
      requires scanned.Raised? ==> scanned.ending.Failed? || scanned.ending == Interrupted
      requires scanned.Raised? && scanned.ending.Failed? ==> Fails(document, scanned.ending.fault)
      modifies ledger`passes, ledger`flight, ledger.history`throws
      modifies disk`files, disk`faults, signal`received, signal`deferred
      ensures Guarded() && ledger.Mirrored()
      ensures failure == if scanned.Raised? && scanned.ending.Failed? then Some(old(FailureNow(document, scanned.ending.fault))) else None
      ensures failure.Some? ==> scanned == Raised(Failed(failure.value.fault)) && failure.value.kept == document.KeptCount()
      ensures failure.Some? ==> failure.value.pass == Numbered(document.started)
      ensures ledger.history.throws == old(ledger.history.throws)
              || (Asks(failure) && ledger.history.throws == Then(old(ledger.history.throws), Unusable(failure.value)))
      ensures Asks(failure) ==> r in {Value(FailedPass(failure.value.fault)), Raised(Interrupted)}
      ensures Asks(failure) && failure.value.signalled ==> r.Value? && signal.received
      ensures failure.Some? && !Asks(failure) ==> r == Raised(Failed(failure.value.fault))
      ensures failure.None? ==> r == Raised(Interrupted) || (r.Value? && r.value.Scanned?)
      ensures r.Value? && r.value.FailedPass? ==> Between(document) && Owed() == old(Owed() - PathSet(sink.records))
      ensures r.Value? && r.value.Scanned? ==>
                && scanned.Value? && r.value == Scanned(sink, scanned.value)
                && Undecided(document, sink) && document.CanTake(sink, scanned.value, [])
                && Owed() - PathSet(scanned.value.pages) == old(Owed() - PathSet(sink.records))
      ensures disk.faults >= old(disk.faults)
    {
      if scanned.Value? {
        return Value(Scanned(sink, scanned.value)), None;
      }
      r, failure := FailPass(document, sink, scanned.ending);
    }

    /**
     * `_scan_pass`: scan one pass and leave it undecided, or throw a failed one away.  Only a
     * pass that failed in a way the operator can put right, while the document keeps a page, is
     * thrown away; and it goes back to the operator even where a signal had landed by then,
     * which nothing heeds any more.
     */
    method ScanPass(document: MultiPageDocument) returns (r: Step<Scanned>, ghost failure: Option<PassFailure>)
      requires Between(document) && NewNumber(document)
      modifies ledger, ledger.history, disk, signal`received, signal`deferred
      ensures Guarded() && ledger.Mirrored()
      ensures failure.Some? ==> failure.value.pass == Numbered(document.started) && failure.value.kept == document.KeptCount()
      ensures ledger.history.failed == if failure.Some? then Fell(old(ledger.history.failed), failure.value) else old(ledger.history.failed)
      ensures ledger.history.throws == old(ledger.history.throws)
              || (Asks(failure) && ledger.history.throws == Then(old(ledger.history.throws), Unusable(failure.value)))
      ensures Asks(failure) ==> r in {Value(FailedPass(failure.value.fault)), Raised(Interrupted)}
      ensures Asks(failure) && failure.value.signalled ==> r.Value? && signal.received
      ensures failure.Some? && !Asks(failure) ==> r == Raised(Failed(failure.value.fault))
      ensures failure.None? ==> r == Raised(Interrupted) || (r.Value? && r.value.Scanned?)
      ensures r.Value? && r.value.FailedPass? ==> Between(document) && Owed() == old(Owed())
      ensures Returns(old(ledger.history.batches)) <= Returns(ledger.history.batches)
      ensures Later(old(ledger.history.recorded), old(ledger.history.throws), ledger.history.recorded, ledger.history.throws)
      ensures r.Value? && r.value.Scanned? ==>
                && fresh(r.value.sink)
                && Undecided(document, r.value.sink)
                && document.CanTake(r.value.sink, r.value.batch, [])
                && Returned(r.value.sink.pass, r.value.batch) in Returns(ledger.history.batches)
                && Owed() - PathSet(r.value.batch.pages) == old(Owed())
      ensures disk.faults >= old(disk.faults)
    {
      document.Totals();
      failure := None;
      if { case !signal.received => :- signal.Land(); case true => }
      var sink := RegisterPass(document);
      r, failure := ScanAndConclude(document, sink);
    }

    /** The `try` of `_scan_pass` and what comes of it. */
    method ScanAndConclude(document: MultiPageDocument, sink: SpooledPageSink) returns (r: Step<Scanned>, ghost failure: Option<PassFailure>)
      requires Undecided(document, sink) && NewNumber(document) && sink.records == [] && 0 <= document.KeptCount()
      requires NoneOf(PathSet(document.records), sink.pass)
      modifies sink`records, ledger, ledger.history, disk, signal`received, signal`deferred
      ensures Guarded() && ledger.Mirrored()
      ensures failure.Some? ==> failure.value.pass == Numbered(document.started) && failure.value.kept == document.KeptCount()
      ensures ledger.history.failed == if failure.Some? then Fell(old(ledger.history.failed), failure.value) else old(ledger.history.failed)
      ensures ledger.history.throws == old(ledger.history.throws)
              || (Asks(failure) && ledger.history.throws == Then(old(ledger.history.throws), Unusable(failure.value)))
      ensures Asks(failure) ==> r in {Value(FailedPass(failure.value.fault)), Raised(Interrupted)}
      ensures Asks(failure) && failure.value.signalled ==> r.Value? && signal.received
      ensures failure.Some? && !Asks(failure) ==> r == Raised(Failed(failure.value.fault))
      ensures failure.None? ==> r == Raised(Interrupted) || (r.Value? && r.value.Scanned?)
      ensures r.Value? && r.value.FailedPass? ==> Between(document) && Owed() == old(Owed())
      ensures Returns(old(ledger.history.batches)) <= Returns(ledger.history.batches)
      ensures Later(old(ledger.history.recorded), old(ledger.history.throws), ledger.history.recorded, ledger.history.throws)
      ensures r.Value? && r.value.Scanned? ==>
                && r.value.sink == sink
                && Undecided(document, r.value.sink)
                && document.CanTake(r.value.sink, r.value.batch, [])
                && Returned(r.value.sink.pass, r.value.batch) in Returns(ledger.history.batches)
                && Owed() - PathSet(r.value.batch.pages) == old(Owed())
      ensures disk.faults >= old(disk.faults)
    {
      var scanned := ScanRegistered(document, sink);
      r, failure := ConcludePass(document, sink, scanned);
    }

    /**
     * A pass whose first sheet has a mode that cannot be stored, while the document keeps a page.
     * Where a signal lands in `add` for that sheet, the interruption is gone: nothing is
     * recorded, and the operator is told of a fault of the scanner and asked again, with both
     * signals ignored from here on.
     */
    method FeedUnstorable(document: MultiPageDocument, sheet: Sheet) returns (r: Step<Scanned>, ghost landed: bool)
      requires Between(document) && NewNumber(document) && document.KeptCount() > 0
      requires !sheet.modeStored && !signal.received
      modifies ledger`passes, ledger`flight, ledger.history`recorded, ledger.history`throws, ledger.history`failed
      modifies disk`files, disk`faults, signal`received, signal`deferred
      ensures Guarded() && ledger.history.recorded == old(ledger.history.recorded)
      ensures r.Value? ==> Owed() == old(Owed())
      ensures r in {Value(FailedPass(ScannerFault)), Raised(Interrupted)}
      ensures landed ==> r == Value(FailedPass(ScannerFault)) && signal.received && Between(document)
    {
      var sink := FeedOne(document, sheet);
      landed := signal.received;
      ghost var failure;
      r, failure := FailPass(document, sink, Failed(ScannerFault));
    }

    /** Register a pass and feed it one sheet that it cannot spool: a fault, and nothing recorded. */
    method FeedOne(document: MultiPageDocument, sheet: Sheet) returns (sink: SpooledPageSink)
      requires Between(document) && NewNumber(document) && !sheet.modeStored
      modifies ledger`passes, ledger`flight, ledger.history`recorded, ledger.history`failed
      modifies disk`files, disk`faults, signal`received, signal`deferred
      ensures fresh(sink) && sink.records == []
      ensures Undecided(document, sink) && ledger.history.recorded == old(ledger.history.recorded)
      ensures ledger.history.failed == Fell(old(ledger.history.failed), FailureNow(document, ScannerFault))
    {
      sink := RegisterPass(document);
      FeedRegistered(document, sink, sheet);
    }

    method FeedRegistered(document: MultiPageDocument, sink: SpooledPageSink, sheet: Sheet)
      requires Undecided(document, sink) && NewNumber(document) && sink.records == [] && !sheet.modeStored
      requires NoneOf(PathSet(document.records), sink.pass)
      modifies sink`records, ledger`flight, ledger.history`recorded, ledger.history`failed
      modifies disk`files, disk`faults, signal`received, signal`deferred
      ensures sink.records == [] && Undecided(document, sink)
      ensures ledger.history.recorded == old(ledger.history.recorded)
      ensures ledger.history.failed == Fell(old(ledger.history.failed), FailureNow(document, ScannerFault))
    {
      OnePassFiles(ledger.flight[0]);
      ledger.history.NextIsNew(document.started);
      Refuse(sink, sheet);
      NoteFailure(FailureNow(document, ScannerFault));
    }

    /** A failed pass is on record, and no pass that came back is. */
    ghost method NoteFailure(failure: PassFailure)
      requires Accounted() && failure.pass !in ReturnedPasses(ledger.history.batches)
      modifies ledger.history`failed
      ensures Accounted() && ledger.history.Latest() <= Higher(old(ledger.history.Latest()), NumberOf(failure.pass))
      ensures ledger.history.failed == Fell(old(ledger.history.failed), failure)
    {
      ledger.history.failed := Fell(ledger.history.failed, failure);
    }

    /** A sheet that the spool refuses leaves the sink, the pages and the files as they were. */
    method Refuse(sink: SpooledPageSink, sheet: Sheet)
      requires Guarded() && sink.Valid() && sink.records == [] && !sheet.modeStored
      requires NoneOf(Referenced(), sink.pass) && sink.pass !in ThrownPasses(ledger.history.throws)
      modifies sink`records, ledger.history`recorded, disk`files, disk`faults, signal`received, signal`deferred
      ensures Guarded() && sink.Valid() && sink.records == [] && ledger.history.recorded == old(ledger.history.recorded)
      ensures Tidy(Referenced(), old(disk.files), true) ==> Tidy(Referenced(), disk.files, true)
      ensures disk.faults >= old(disk.faults)
    {
      assert Referenced() + PathSet([]) == Referenced();
      var added := AddSheet(sink, sheet, ledger.history, disk, signal, Referenced());
      assert added == Raised(Failed(ScannerFault));
    }

    /** Discard the one pass in flight, whose files are not the document's. */
    method DiscardOnly(sink: SpooledPageSink, ghost throw: Throw) returns (r: Step<()>)
      requires Guarded() && sink.Valid() && throw.Pass() == sink.pass && MayThrow(throw)
      requires ledger.passes == [Registered(PartialPart, sink)] && ledger.flight == [Pass(PartialPart, sink.records)]
      requires NoneOf(PathSet(artefacts.document), sink.pass)
      modifies ledger`passes, ledger`flight, ledger.history`throws, disk`files, disk`faults, signal`received, signal`deferred
      ensures Guarded() && Forgotten(old(ledger.passes), old(ledger.flight), ledger.passes, ledger.flight)
      ensures ledger.history.throws in {old(ledger.history.throws), Then(old(ledger.history.throws), throw)}
      ensures r.Value? ==>
                && ledger.passes == [] && ledger.flight == []
                && Owed() == old(Owed() - PathSet(sink.records))
                && ledger.history.throws == Then(old(ledger.history.throws), throw)
                && (disk.faults == old(disk.faults) ==> disk.files == old(disk.files) - PathSet(sink.records))
      ensures r.Raised? ==> r.ending == Interrupted && !old(signal.received)
      ensures old(signal.received) ==> signal.received
      ensures disk.faults >= old(disk.faults)
    {
      OnePassFiles(ledger.flight[0]);
      assert FlightFiles(ledger.flight) - PathSet(sink.records) == {};
      StillAccounted(throw);
      r := ledger.Discard(sink, disk, signal, PathSet(artefacts.document), throw);
    }

    /** A pass that was never accepted is discarded: its files go, and nothing else does. */
    method ThrowAway(document: MultiPageDocument, sink: SpooledPageSink, ghost throw: Throw) returns (r: Step<()>)
      requires Undecided(document, sink) && throw.Pass() == sink.pass && MayThrow(throw)
      modifies ledger`passes, ledger`flight, ledger.history`throws, disk`files, disk`faults, signal`received, signal`deferred
      ensures Guarded() && Forgotten(old(ledger.passes), old(ledger.flight), ledger.passes, ledger.flight)
      ensures ledger.history.throws in {old(ledger.history.throws), Then(old(ledger.history.throws), throw)}
      ensures r.Value? ==> Between(document) && Owed() == old(Owed() - PathSet(sink.records))
      ensures r.Value? ==> ledger.history.throws == Then(old(ledger.history.throws), throw)
      ensures r.Raised? ==> r.ending == Interrupted && !old(signal.received)
      ensures old(signal.received) ==> signal.received
      ensures disk.faults >= old(disk.faults)
    {
      ghost var before := disk.files;
      PassesApart(document, sink);
      StillAccounted(throw);
      r := DiscardOnly(sink, throw);
      if r.Value? && disk.faults == 0 {
        TidyWithout(PathSet(artefacts.document), PathSet(sink.records), before, disk.files);
      }
    }

    /** The files of the pass in flight are not the document's. */
    lemma PassesApart(document: MultiPageDocument, sink: SpooledPageSink)
      requires document.Valid() && 0 < document.started && Standing(document.history, document.started - 1)
      requires sink.Valid() && sink.pass == Numbered(document.started)
      ensures NoneOf(PathSet(document.records), sink.pass) && PathSet(sink.records) !! PathSet(document.records)
    {
      BoundFiles(document.history, document.started - 1);
    }

    /** Which pages of a pass look blank, when the profile asks. */
    method LookBlank(batch: ScanBatch) returns (blanks: seq<nat>)
      ensures Positions(blanks, |batch.pages|)
      ensures blanks == Blanks(batch.pages, detectsBlanks, threshold)
    {
      blanks := [];
      if detectsBlanks {
        var _, removed := FilterBlankPages(batch.pages, threshold);
        blanks := removed;
      }
    }

    /** The one question about a pass's blank pages, if it has any. */
    method AskAboutBlanks(document: MultiPageDocument, blanks: seq<nat>) returns (r: Step<Option<PassAnswer>>)
      requires !signal.settled
      modifies document`prompts, signal`received, signal`deferred, coordinator`patience, coordinator`broken, coordinator`answers
      ensures r.Value? ==> r.value in {None, Some(Rescan), Some(SkipBlanks), Some(KeepBlanks), Some(TimedOut)}
      ensures r.Raised? ==> r.ending in {Interrupted, Failed(UnofferedAnswer)}
      ensures r.Value? ==> (r.value == None <==> blanks == [])
      ensures r.Value? && r.value != None ==> r.value == Some(coordinator.Last()) && coordinator.patience < old(coordinator.patience)
      ensures coordinator.patience <= old(coordinator.patience)
      ensures ChoicesIn(coordinator.answers) == ChoicesIn(old(coordinator.answers))
      ensures RescansAsked(coordinator.answers) == RescansAsked(old(coordinator.answers)) + if r == Value(Some(Rescan)) then 1 else 0
    {
      if blanks == [] {
        return Value(None);
      }
      document.prompts := document.prompts + 1;
      var prompt := PassPrompt(document.prompts, BlankDecision, document.KeptCount(), BlankAnswers);
      var answer :- Ask(prompt);
      return Value(Some(answer));
    }

    /** Nobody answered about the blank pages, so the document is warned. */
    method WarnUnanswered(document: MultiPageDocument)
      requires Between(document)
      modifies document`warnings
      ensures Between(document) && document.warnings != []
    {
      document.warnings := [NobodyAnsweredBlanks(document.KeptCount())];
    }

    /** Accept the pass without the pages its answer skips; nobody answering finishes the document. */
    method AcceptAnswered(document: MultiPageDocument, sink: SpooledPageSink, batch: ScanBatch, blanks: seq<nat>,
                          answer: Option<PassAnswer>)
      returns (r: Step<()>, ghost skipped: seq<nat>)
      requires Undecided(document, sink) && document.CanTake(sink, batch, []) && document.warnings == []
      requires Positions(blanks, |batch.pages|)
      modifies document`records, document`removed, document`passes, document`unreadable, document`history, document`warnings
      modifies ledger`passes, ledger`flight, ledger`unreadableSheets, artefacts`document, signal`received, signal`deferred
      ensures Guarded() && Forgotten(old(ledger.passes), old(ledger.flight), ledger.passes, ledger.flight)
      ensures skipped == if answer in {Some(SkipBlanks), Some(TimedOut)} then blanks else []
      ensures r.Value? ==>
                && Between(document)
                && document.history == Adding(old(document.history), document.TakenPass(sink, batch, skipped))
                && (answer == Some(TimedOut) <==> document.warnings != [])
      ensures document.started == old(document.started)
      ensures r.Raised? ==> r.ending == Interrupted
    {
      var left := if answer in {Some(SkipBlanks), Some(TimedOut)} then blanks else [];
      skipped := left;
      r := AcceptPass(document, sink, batch, left);
      assert Guarded();
      if r.Value? && answer == Some(TimedOut) {
        WarnUnanswered(document);
      }
    }

    /** What the answer about a pass's blank pages does: the pass is thrown away, or it stands. */
    method SettleAnswered(document: MultiPageDocument, sink: SpooledPageSink, batch: ScanBatch, blanks: seq<nat>,
                          answer: Option<PassAnswer>)
      returns (r: Step<()>, ghost skipped: seq<nat>)
      requires Undecided(document, sink) && document.CanTake(sink, batch, []) && document.warnings == []
      requires Positions(blanks, |batch.pages|)
      requires answer == Some(Rescan) ==> Rescans(ledger.history.throws) < RescansAsked(coordinator.answers)
      modifies document, ledger, ledger.history`throws, artefacts`document
      modifies disk`files, disk`faults, signal`received, signal`deferred
      ensures Guarded() && Forgotten(old(ledger.passes), old(ledger.flight), ledger.passes, ledger.flight)
      ensures skipped == if answer in {Some(SkipBlanks), Some(TimedOut)} then blanks else []
      ensures answer != Some(Rescan) ==> ledger.history.throws == old(ledger.history.throws)
      ensures ledger.history.throws in {old(ledger.history.throws), Then(old(ledger.history.throws), Rescanned(sink.pass))}
      ensures r.Value? ==> Between(document) && (answer == Some(TimedOut) <==> document.warnings != [])
      ensures r.Value? && answer == Some(Rescan) ==>
                && ledger.history.throws == Then(old(ledger.history.throws), Rescanned(sink.pass))
                && document.history == old(document.history) && Owed() == old(Owed() - PathSet(sink.records))
      ensures r.Value? && answer != Some(Rescan) ==>
                document.history == Adding(old(document.history), document.TakenPass(sink, batch, skipped))
      ensures coordinator.answers == old(coordinator.answers) && coordinator.patience == old(coordinator.patience)
      ensures document.started == old(document.started)
      ensures r.Raised? ==> r.ending == Interrupted
    {
      skipped := [];
      if answer == Some(Rescan) {
        r := ThrowAway(document, sink, Rescanned(sink.pass));
      } else {
        r, skipped := AcceptAnswered(document, sink, batch, blanks, answer);
      }
    }

    /** Look for blank pages in a scanned pass, and ask about them if there are any. */
    method AskIfBlank(document: MultiPageDocument, sink: SpooledPageSink, batch: ScanBatch)
      returns (r: Step<Option<PassAnswer>>, blanks: seq<nat>)
      requires Undecided(document, sink) && Heeded()
      modifies document`prompts, signal`received, signal`deferred, coordinator`patience, coordinator`broken, coordinator`answers
      ensures Undecided(document, sink)
      ensures Positions(blanks, |batch.pages|)
      ensures blanks == Blanks(batch.pages, detectsBlanks, threshold)
      ensures r.Value? ==> r.value in {None, Some(Rescan), Some(SkipBlanks), Some(KeepBlanks), Some(TimedOut)}
      ensures r.Value? ==> (r.value == None <==> blanks == [])
      ensures r.Value? && r.value != None ==> r.value == Some(coordinator.Last()) && coordinator.patience < old(coordinator.patience)
      ensures ChoicesIn(coordinator.answers) == ChoicesIn(old(coordinator.answers))
      ensures Heeded() <==> r != Value(Some(Rescan))
      ensures r == Value(Some(Rescan)) ==> RescansAsked(coordinator.answers) == Rescans(ledger.history.throws) + 1
      ensures r.Raised? ==> r.ending in {Interrupted, Failed(UnofferedAnswer)}
      ensures coordinator.patience <= old(coordinator.patience)
    {
      blanks := LookBlank(batch);
      r := AskAboutBlanks(document, blanks);
      assert Accounted();
    }

    /** `_settle_blanks`: accept a scanned pass, asking first if a page looks blank. */
    method SettleBlanks(document: MultiPageDocument, sink: SpooledPageSink, batch: ScanBatch)
      returns (r: Step<Option<PassAnswer>>, ghost skipped: seq<nat>)
      requires Undecided(document, sink) && document.CanTake(sink, batch, []) && document.warnings == [] && Heeded()
      modifies document, ledger, ledger.history`throws, artefacts`document, disk`files, disk`faults
      modifies signal`received, signal`deferred, coordinator`patience, coordinator`broken, coordinator`answers
      ensures Guarded() && Forgotten(old(ledger.passes), old(ledger.flight), ledger.passes, ledger.flight)
      ensures r.Value? ==> Between(document)
      ensures r.Value? ==> r.value in {None, Some(Rescan), Some(SkipBlanks), Some(KeepBlanks), Some(TimedOut)}
      ensures r == Value(Some(Rescan)) ==>
                document.history == old(document.history) && Owed() == old(Owed() - PathSet(sink.records))
      ensures r.Value? && r.value != Some(Rescan) ==>
                document.history == Adding(old(document.history), document.TakenPass(sink, batch, skipped))
      ensures ledger.history.throws == old(ledger.history.throws)
              || (ledger.history.throws == Then(old(ledger.history.throws), Rescanned(sink.pass)) && coordinator.Last() == Rescan)
      ensures r.Value? ==> (ledger.history.throws == old(ledger.history.throws) <==> r.value != Some(Rescan))
      ensures skipped in {[], Blanks(batch.pages, detectsBlanks, threshold)}
      ensures r.Value? ==> (skipped != [] <==> r.value in {Some(SkipBlanks), Some(TimedOut)})
      ensures r.Value? && r.value.Some? ==> r.value.value == coordinator.Last()
      ensures r.Value? ==> (r.value == Some(TimedOut) <==> document.warnings != [])
      ensures document.started == old(document.started)
      ensures r.Raised? ==> r.ending in {Interrupted, Failed(UnofferedAnswer)}
      ensures r.Value? && r.value == Some(Rescan) ==> coordinator.patience < old(coordinator.patience)
      ensures coordinator.patience <= old(coordinator.patience)
      ensures r.Value? ==> Heeded()
      ensures ChoicesIn(coordinator.answers) == ChoicesIn(old(coordinator.answers))
    {
      skipped := [];
      var asked, blanks := AskIfBlank(document, sink, batch);
      r := asked;
      if asked.Value? {
        var settled, left := SettleAnswered(document, sink, batch, blanks, asked.value);
        skipped := left;
        r := if settled.Raised? then Raised(settled.ending) else asked;
      }
    }

    /** What the loop of a multi-page document keeps, pass after pass. */
    ghost predicate Growing(document: MultiPageDocument)
      reads ledger.history, coordinator`answers, ledger`flight, ledger`passes, ledger`unreadableSheets
      reads artefacts`document, artefacts`stage, artefacts`pdfs, artefacts`accepted, disk, signal`settled
      reads document`records, document`removed, document`passes, document`unreadable, document`started, document`history
      reads SinksOf(document.history)`records
    {
      && Between(document)
      && document.SinksHold()
      && AllJudged(document.history, detectsBlanks, threshold)
      && FromScanner(document.history, ledger.history.batches)
    }

    lemma Grown(document: MultiPageDocument, before: History, pass: StandingPass)
      requires Between(document) && document.history == Adding(before, pass)
      requires AllJudged(before, detectsBlanks, threshold) && pass.skipped in {[], Blanks(pass.pages, detectsBlanks, threshold)}
      requires Hold(before) && pass.sink.records == pass.pages
      requires FromScanner(before, ledger.history.batches)
      requires AsReturned(pass) in Returns(ledger.history.batches)
      ensures Growing(document)
    {
    }

    /** Give the next pass its number, unless saneless began stopping since the last answer. */
    method StartPass(document: MultiPageDocument) returns (r: Step<()>)
      requires Growing(document)
      modifies document`started, signal`received, signal`deferred
      ensures Guarded() && ledger.passes == [] && ledger.flight == []
      ensures r.Value? ==> Growing(document) && NewNumber(document)
      ensures r.Raised? ==> r.ending == Interrupted
    {
      var stopping: bool := *;
      if document.started > 0 && stopping {
        return Raised(Interrupted);
      }
      if { case !signal.received => :- signal.Land(); case true => }
      document.started := document.started + 1;
      HoldStays(document.history);
      StandingWithin(document.history, document.started - 1, document.started);
      return Value(());
    }

    static function AsDecision(settled: Step<Option<PassAnswer>>): Step<Decision> {
      match settled
      case Raised(ending) => Raised(ending)
      case Value(Some(Rescan)) => Value(ThrownAway)
      case Value(answer) => Value(Accepted(answer == Some(TimedOut)))
    }

    /** Settle a scanned pass: it stands, or it is thrown away. */
    method SettlePass(document: MultiPageDocument, sink: SpooledPageSink, batch: ScanBatch) returns (r: Step<Decision>)
      requires Undecided(document, sink) && document.CanTake(sink, batch, []) && document.warnings == [] && Heeded()
      requires AllJudged(document.history, detectsBlanks, threshold) && document.SinksHold()
      requires FromScanner(document.history, ledger.history.batches) && Returned(sink.pass, batch) in Returns(ledger.history.batches)
      modifies document, ledger, ledger.history`throws, artefacts`document, disk, signal`received, signal`deferred, coordinator
      ensures Guarded() && ledger.Mirrored()
      ensures ThrownPasses(old(ledger.history.throws)) <= ThrownPasses(ledger.history.throws)
      ensures r.Value? ==> Growing(document) && !r.value.PassFailed?
      ensures r == Value(ThrownAway) ==> document.history == old(document.history)
      ensures r.Value? && r.value.Accepted? ==>
                document.history.Adding? && document.history.before == old(document.history)
      ensures r.Value? ==> (r.value == Accepted(true) <==> document.warnings != [])
      ensures r == Value(ThrownAway) ==> coordinator.patience < old(coordinator.patience)
      ensures coordinator.patience <= old(coordinator.patience)
      ensures r.Value? ==> Heeded()
      ensures ChoicesIn(coordinator.answers) == ChoicesIn(old(coordinator.answers))
      ensures r.Raised? ==> r.ending.Failed? || r.ending == Interrupted
    {
      ghost var before := document.history;
      var decision, skipped := SettleBlanks(document, sink, batch);
      r := AsDecision(decision);
      HoldStays(before);
      if r.Value? && r.value.Accepted? {
        Grown(document, before, document.TakenPass(sink, batch, skipped));
      }
    }

    /** Scan the pass that was given its number, and settle it. */
    method ScanAndSettle(document: MultiPageDocument) returns (r: Step<Decision>)
      requires Growing(document) && NewNumber(document) && document.warnings == [] && Heeded()
      modifies document, ledger, ledger.history, artefacts`document, disk, signal`received, signal`deferred, coordinator
      ensures Guarded() && ledger.Mirrored()
      ensures Later(old(ledger.history.recorded), old(ledger.history.throws), ledger.history.recorded, ledger.history.throws)
      ensures r.Value? ==> Growing(document)
      ensures r.Value? && !r.value.Accepted? ==> document.history == old(document.history)
      ensures r.Value? && r.value.Accepted? ==>
                document.history.Adding? && document.history.before == old(document.history)
      ensures r.Value? && r.value.PassFailed? ==> document.KeptCount() > 0
      ensures r.Value? ==> (r.value == Accepted(true) <==> document.warnings != [])
      ensures r == Value(ThrownAway) ==> coordinator.patience < old(coordinator.patience)
      ensures coordinator.patience <= old(coordinator.patience)
      ensures r.Value? ==> Heeded()
      ensures ChoicesIn(coordinator.answers) == ChoicesIn(old(coordinator.answers))
      ensures r.Raised? ==> r.ending.Failed? || r.ending == Interrupted
    {
      var passed, _ := ScanPass(document);
      HoldStays(document.history);
      if passed.Value? && passed.value.Scanned? {
        r := SettlePass(document, passed.value.sink, passed.value.batch);
      } else {
        r := if passed.Raised? then Raised(passed.ending) else Value(PassFailed(passed.value.fault));
      }
    }

    /** One turn of the loop of `_after_pass`: scan one pass and settle it. */
    method OnePass(document: MultiPageDocument) returns (r: Step<Decision>)
      requires Growing(document) && document.warnings == [] && Heeded()
      modifies document, ledger, ledger.history, artefacts`document, disk, signal`received, signal`deferred, coordinator
      ensures Guarded() && ledger.Mirrored()
      ensures Later(old(ledger.history.recorded), old(ledger.history.throws), ledger.history.recorded, ledger.history.throws)
      ensures r.Value? ==> Growing(document)
      ensures r.Value? && !r.value.Accepted? ==> document.history == old(document.history)
      ensures r.Value? && r.value.Accepted? ==>
                document.history.Adding? && document.history.before == old(document.history)
      ensures r.Value? && r.value.PassFailed? ==> document.KeptCount() > 0
      ensures r.Value? ==> (r.value == Accepted(true) <==> document.warnings != [])
      ensures r == Value(ThrownAway) ==> coordinator.patience < old(coordinator.patience)
      ensures coordinator.patience <= old(coordinator.patience)
      ensures r.Value? ==> Heeded()
      ensures ChoicesIn(coordinator.answers) == ChoicesIn(old(coordinator.answers))
      ensures r.Raised? ==> r.ending.Failed? || r.ending == Interrupted
    {
      var _ :- StartPass(document);
      r := ScanAndSettle(document);
    }

    /** An accepted pass adds at most what one pass may hold. */
    lemma KeptGrowth(document: MultiPageDocument, before: History)
      requires document.Valid() && SkipsFit(before)
      requires document.history.Adding? && document.history.before == before
      ensures document.KeptCount() <= KeptTotal(before) + MAX_PAGES_PER_PASS
      ensures document.records != []
    {
      document.Totals();
    }

    /**
     * The prompt after an accepted pass.  It counts the pages that finishing would deliver, and
     * Finish is on it exactly when there is one; whatever was kept, the operator can go on, take
     * the pass back or give up.
     */
    method NextPassPrompt(document: MultiPageDocument) returns (prompt: PassPrompt)
      requires document.Valid()
      modifies document`prompts
      ensures document.Valid()
      ensures prompt.kept == document.KeptCount() == |BoundKept(document.history)|
      ensures Finish in prompt.offered <==> BoundKept(document.history) != []
      ensures {Next, Rescan, Abort} <= prompt.offered <= {Next, Rescan, Finish, Abort}
      ensures prompt.number == document.prompts > old(document.prompts) && prompt.wait == NextPass
    {
      document.Totals();
      KeptIsBound(document.history);
      KeptCounts(document.records, document.removed);
      document.prompts := document.prompts + 1;
      var offered := {Next, Rescan, Abort};
      if document.KeptCount() > 0 {
        offered := offered + {Finish};
      }
      return PassPrompt(document.prompts, NextPass, document.KeptCount(), offered);
    }

    /** The cap the last standing pass stopped at, if it did. */
    ghost function LastCap(document: MultiPageDocument): Option<PassCap>
      reads document`passes
    {
      if document.passes == [] then None else document.passes[|document.passes| - 1].cap
    }

    /** What to ask once a pass has settled, or why the document is finished. */
    method AfterDecision(document: MultiPageDocument, decision: Decision) returns (r: Option<PassPrompt>)
      requires document.Valid() && !decision.ThrownAway? && document.history.Adding?
      requires decision.PassFailed? ==> 0 < document.KeptCount() < MAX_DOCUMENT_PAGES
      requires decision == Accepted(true) <==> document.warnings != []
      modifies document`prompts, document`warnings
      ensures r.Some? ==> document.KeptCount() < MAX_DOCUMENT_PAGES && document.warnings == []
      ensures r.Some? ==> r.value.wait != BlankDecision && Abort in r.value.offered && r.value.offered <= {Next, Rescan, Finish, Abort}
      ensures r.Some? && Finish in r.value.offered ==> document.KeptCount() > 0
      ensures r.None? ==> document.warnings != []
      ensures decision.PassFailed? ==> r == Some(PassPrompt(document.prompts, Retry, document.KeptCount(), RetryAnswers))
      ensures decision.Accepted? ==>
                (r.None? <==> decision.timedOut || LastCap(document).Some? || document.KeptCount() >= MAX_DOCUMENT_PAGES)
      ensures decision.Accepted? && LastCap(document).Some? ==>
                document.warnings == old(document.warnings) + [PassCapped(LastCap(document).value, document.KeptCount())]
      ensures decision.Accepted? && LastCap(document).None? ==>
                document.warnings == if r.None? && !decision.timedOut then [DocumentCapped(document.KeptCount())]
                                    else old(document.warnings)
    {
      if decision.PassFailed? {
        document.prompts := document.prompts + 1;
        return Some(PassPrompt(document.prompts, Retry, document.KeptCount(), RetryAnswers));
      }
      var cap := document.passes[|document.passes| - 1].cap;
      if cap.Some? {
        document.warnings := document.warnings + [PassCapped(cap.value, document.KeptCount())];
      }
      if decision.timedOut || cap.Some? {
        return None;
      }
      if document.KeptCount() >= MAX_DOCUMENT_PAGES {
        document.warnings := [DocumentCapped(document.KeptCount())];
        return None;
      }
      var prompt := NextPassPrompt(document);
      return Some(prompt);
    }

    /** Scan until a pass settles: one thrown away at its blank-page prompt is scanned again at once. */
    method SettleOnePass(document: MultiPageDocument) returns (r: Step<Decision>)
      requires Growing(document) && document.warnings == [] && Heeded()
      modifies document, ledger, ledger.history, artefacts`document, disk, signal`received, signal`deferred, coordinator
      ensures Guarded() && ledger.Mirrored()
      ensures Later(old(ledger.history.recorded), old(ledger.history.throws), ledger.history.recorded, ledger.history.throws)
      ensures r.Value? ==> Growing(document) && !r.value.ThrownAway?
      ensures r.Value? && r.value.PassFailed? ==> document.history == old(document.history)
      ensures r.Value? && r.value.Accepted? ==> document.history.Adding? && document.history.before == old(document.history)
      ensures r.Value? ==> document.KeptCount() <= old(document.KeptCount()) + MAX_PAGES_PER_PASS && document.history.Adding?
      ensures r.Value? && r.value.PassFailed? ==> 0 < document.KeptCount() == old(document.KeptCount())
      ensures r.Value? ==> (r.value == Accepted(true) <==> document.warnings != [])
      ensures coordinator.patience <= old(coordinator.patience)
      ensures r.Value? ==> Heeded()
      ensures ChoicesIn(coordinator.answers) == ChoicesIn(old(coordinator.answers))
      ensures r.Raised? ==> r.ending.Failed? || r.ending == Interrupted
    {
      ghost var before := document.history;
      document.Totals();
      while true
        invariant Growing(document) && document.history == before && document.warnings == []
        invariant Heeded() && ChoicesIn(coordinator.answers) == ChoicesIn(old(coordinator.answers))
        invariant coordinator.patience <= old(coordinator.patience)
        invariant Later(old(ledger.history.recorded), old(ledger.history.throws), ledger.history.recorded, ledger.history.throws)
        decreases coordinator.patience
      {
        var decision :- OnePass(document);
        document.Totals();
        if decision.Accepted? {
          KeptGrowth(document, before);
        }
        if !decision.ThrownAway? {
          return Value(decision);
        }
      }
    }

    /** The end of `_after_pass`: the prompt that follows, or a finished document with its warning. */
    method AskNext(document: MultiPageDocument, decision: Decision) returns (r: Option<PassPrompt>)
      requires Growing(document) && document.history.Adding? && !decision.ThrownAway?
      requires document.KeptCount() < MAX_DOCUMENT_PAGES + MAX_PAGES_PER_PASS
      requires decision.PassFailed? ==> 0 < document.KeptCount() < MAX_DOCUMENT_PAGES
      requires decision == Accepted(true) <==> document.warnings != []
      modifies document`prompts, document`warnings
      ensures Growing(document)
      ensures r.Some? ==>
                && document.KeptCount() < MAX_DOCUMENT_PAGES
                && document.warnings == []
                && Abort in r.value.offered && r.value.wait != BlankDecision
                && r.value.offered <= {Next, Rescan, Finish, Abort}
                && (Finish in r.value.offered ==> document.KeptCount() > 0)
                && (Rescan in r.value.offered ==> decision.Accepted?)
      ensures r.None? ==> document.warnings != [] && decision.Accepted?
    {
      r := AfterDecision(document, decision);
      HoldStays(document.history);
    }

    /** `_after_pass`: scan a pass, and say what the operator is asked next, if anything. */
    method AfterPass(document: MultiPageDocument) returns (r: Step<Option<PassPrompt>>)
      requires Growing(document) && document.warnings == [] && Heeded() && document.KeptCount() < MAX_DOCUMENT_PAGES
      modifies document, ledger, ledger.history, artefacts`document, disk, signal`received, signal`deferred, coordinator
      ensures Guarded() && ledger.Mirrored()
      ensures Later(old(ledger.history.recorded), old(ledger.history.throws), ledger.history.recorded, ledger.history.throws)
      ensures r.Value? ==> Growing(document) && document.history.Adding?
      ensures r.Value? ==> document.history == old(document.history) || document.history.before == old(document.history)
      ensures r.Value? && (r.value.None? || Rescan in r.value.value.offered) ==> document.history.before == old(document.history)
      ensures r.Value? && r.value.Some? ==>
                && document.KeptCount() < MAX_DOCUMENT_PAGES
                && document.warnings == []
                && Abort in r.value.value.offered && r.value.value.wait != BlankDecision
                && r.value.value.offered <= {Next, Rescan, Finish, Abort}
                && (Finish in r.value.value.offered ==> document.KeptCount() > 0)
      ensures r.Value? && r.value.None? ==>
                document.warnings != [] && document.KeptCount() < MAX_DOCUMENT_PAGES + MAX_PAGES_PER_PASS
      ensures coordinator.patience <= old(coordinator.patience)
      ensures r.Value? ==> Heeded()
      ensures ChoicesIn(coordinator.answers) == ChoicesIn(old(coordinator.answers))
      ensures r.Raised? ==> r.ending.Failed? || r.ending == Interrupted
    {
      var decision :- SettleOnePass(document);
      var prompt := AskNext(document, decision);
      return Value(prompt);
    }

    /** Hear what follows a settled pass; nobody answering finishes the document. */
    method HearAnswer(document: MultiPageDocument, prompt: Option<PassPrompt>) returns (r: Step<PassAnswer>)
      requires Growing(document) && Heeded() && !Aborts(ChoicesIn(coordinator.answers))
      requires prompt.Some? ==>
                 && document.warnings == [] && Abort in prompt.value.offered && prompt.value.wait != BlankDecision
                 && prompt.value.offered <= {Next, Rescan, Finish, Abort}
                 && (Finish in prompt.value.offered ==> document.KeptCount() > 0)
      requires prompt.None? ==> document.warnings != []
      modifies document`warnings, signal`received, signal`deferred, coordinator`patience, coordinator`broken, coordinator`answers
      ensures Guarded() && ledger.passes == [] && ledger.flight == []
      ensures r.Value? ==> Growing(document)
      ensures r.Value? ==> r.value in {Next, Rescan, Finish, TimedOut}
      ensures r.Value? && r.value != TimedOut ==>
                prompt.Some? && document.warnings == [] && coordinator.patience < old(coordinator.patience)
      ensures r.Value? && r.value != Rescan ==> Heeded()
      ensures r == Value(Rescan) ==> RescansAsked(coordinator.answers) == Rescans(ledger.history.throws) + 1
      ensures r.Value? ==> ChoicesIn(coordinator.answers) == Choosing(old(ChoicesIn(coordinator.answers)), prompt.Some?, r.value)
      ensures r == Value(Rescan) ==> prompt.Some? && Rescan in prompt.value.offered
      ensures r == Value(Finish) ==> document.KeptCount() > 0 && coordinator.Last() == Finish
      ensures r == Value(TimedOut) ==> document.warnings != []
      ensures r == Raised(Cancelled) <==> coordinator.GaveUp()
    {
      r := Value(TimedOut);
      if prompt.Some? {
        r := AnswerTo(document, prompt.value);
      }
      HoldStays(document.history);
    }

    /** Put a prompt between passes; the document is warned where nobody answers. */
    method AnswerTo(document: MultiPageDocument, prompt: PassPrompt) returns (r: Step<PassAnswer>)
      requires !signal.settled && Heeded() && !Aborts(ChoicesIn(coordinator.answers))
      requires document.warnings == [] && Abort in prompt.offered && prompt.wait != BlankDecision
      modifies document`warnings, signal`received, signal`deferred, coordinator`patience, coordinator`broken, coordinator`answers
      ensures RescansAsked(coordinator.answers) >= RescansAsked(old(coordinator.answers))
      ensures r.Value? ==> r.value in prompt.offered - {Abort, StopAsked} + {TimedOut}
      ensures r.Value? ==> coordinator.patience < old(coordinator.patience)
      ensures r.Value? ==> r.value == coordinator.Last() && (document.warnings == [] <==> r.value != TimedOut)
      ensures r.Value? ==> RescansAsked(coordinator.answers) == Rescans(ledger.history.throws) + if r.value == Rescan then 1 else 0
      ensures r.Value? ==> ChoicesIn(coordinator.answers) == Chose(old(ChoicesIn(coordinator.answers)), r.value)
      ensures r == Raised(Cancelled) <==> coordinator.GaveUp()
    {
      r := Ask(prompt);
      if r == Value(TimedOut) {
        document.warnings := [NobodyAnswered(document.KeptCount())];
      }
    }

    /** Scan a pass and hear what follows it: an answer, or that the document is finished. */
    method PassAndAnswer(document: MultiPageDocument) returns (r: Step<PassAnswer>, ghost asked: bool)
      requires Growing(document) && document.warnings == [] && document.KeptCount() < MAX_DOCUMENT_PAGES
      requires Heeded() && !Aborts(ChoicesIn(coordinator.answers))
      modifies document, ledger, ledger.history, artefacts`document, disk, signal`received, signal`deferred, coordinator
      ensures Guarded() && ledger.Mirrored()
      ensures Later(old(ledger.history.recorded), old(ledger.history.throws), ledger.history.recorded, ledger.history.throws)
      ensures r.Value? ==> Growing(document) && document.history.Adding?
      ensures r.Value? ==> r.value in {Next, Rescan, Finish, TimedOut}
      ensures r.Value? ==> document.KeptCount() < MAX_DOCUMENT_PAGES + MAX_PAGES_PER_PASS
      ensures r.Value? && r.value != TimedOut ==>
                && document.warnings == []
                && document.KeptCount() < MAX_DOCUMENT_PAGES
                && coordinator.patience < old(coordinator.patience)
      ensures r.Value? ==> document.history == old(document.history) || document.history.before == old(document.history)
      ensures r == Value(Rescan) ==> document.history.before == old(document.history)
      ensures r.Value? && r.value != Rescan ==> Heeded()
      ensures r == Value(Rescan) ==> RescansAsked(coordinator.answers) == Rescans(ledger.history.throws) + 1
      ensures r.Value? ==> ChoicesIn(coordinator.answers) == Choosing(old(ChoicesIn(coordinator.answers)), asked, r.value)
      ensures r.Value? && !asked ==> r.value == TimedOut
      ensures r == Value(Finish) ==> document.KeptCount() > 0 && coordinator.Last() == Finish
      ensures r == Value(TimedOut) ==> document.warnings != []
      ensures r == Raised(Cancelled) <==> coordinator.GaveUp()
    {
      var prompt := AfterPass(document);
      if prompt.Raised? {
        return Raised(prompt.ending), false;
      }
      asked := prompt.value.Some?;
      ghost var history, recorded, throws := document.history, ledger.history.recorded, ledger.history.throws;
      r := HearAnswer(document, prompt.value);
      assert document.history == history && ledger.history.recorded == recorded && ledger.history.throws == throws;
    }

    /**
     * `_scan_multi_page`: build one document from as many passes as the operator asks for.
     * However it ends, every page accepted or in flight is guarded.  It finishes without a
     * warning exactly when the operator pressed Finish, which nobody can while no page is kept.
     * The document is what its turns make of the choices heard, and an abort that was chosen is
     * the one thing that cancels.
     */
    method ScanMultiPage() returns (r: Step<MultiPageDocument>, ghost pressed: bool)
      requires Guarded() && ledger.passes == [] && ledger.flight == [] && artefacts.document == []
      requires ledger.unreadableSheets == 0 && ledger.history.Latest() == 0 && Tidy({}, disk.files, disk.faults == 0)
      requires ledger.history.throws == NoThrows && coordinator.answers == NoAnswers
      modifies ledger, ledger.history, artefacts`document, disk, signal`received, signal`deferred, coordinator
      ensures Guarded() && ledger.Mirrored()
      ensures Later(old(ledger.history.recorded), old(ledger.history.throws), ledger.history.recorded, ledger.history.throws)
      ensures r.Value? ==>
                && fresh(r.value)
                && Growing(r.value)
                && r.value.history.Adding?
                && r.value.KeptCount() < MAX_DOCUMENT_PAGES + MAX_PAGES_PER_PASS
                && (r.value.warnings == [] <==> pressed)
                && (pressed ==> r.value.KeptCount() > 0 && coordinator.Last() == Finish)
      ensures r.Value? ==> Heeded() && Obeys(r.value, ledger.history.turns)
      ensures r == Raised(Cancelled) <==> coordinator.GaveUp()
    {
      ghost var turns;
      r, pressed, turns := ScanTurns();
      ledger.history.turns := turns;
    }

    /** Turn after turn, until one ends the document. */
    method ScanTurns() returns (r: Step<MultiPageDocument>, ghost pressed: bool, ghost turns: Turns)
      requires Guarded() && ledger.passes == [] && ledger.flight == [] && artefacts.document == []
      requires ledger.unreadableSheets == 0 && ledger.history.Latest() == 0 && Tidy({}, disk.files, disk.faults == 0)
      requires ledger.history.throws == NoThrows && coordinator.answers == NoAnswers
      modifies ledger, ledger.history, artefacts`document, disk, signal`received, signal`deferred, coordinator
      ensures Guarded() && ledger.Mirrored()
      ensures Later(old(ledger.history.recorded), old(ledger.history.throws), ledger.history.recorded, ledger.history.throws)
      ensures r.Value? ==>
                && fresh(r.value)
                && Growing(r.value)
                && r.value.history.Adding?
                && r.value.KeptCount() < MAX_DOCUMENT_PAGES + MAX_PAGES_PER_PASS
                && (r.value.warnings == [] <==> pressed)
                && (pressed ==> r.value.KeptCount() > 0 && coordinator.Last() == Finish)
      ensures r.Value? ==> Heeded() && Obeys(r.value, turns)
      ensures r == Raised(Cancelled) <==> coordinator.GaveUp()
    {
      pressed, turns := false, NoTurns;
      var document := StartDocument();
      while true
        invariant fresh(document) && Growing(document) && document.warnings == []
        invariant document.KeptCount() < MAX_DOCUMENT_PAGES
        invariant Heeded() && Obeys(document, turns) && !Aborts(ChoicesOf(turns))
        invariant Later(old(ledger.history.recorded), old(ledger.history.throws), ledger.history.recorded, ledger.history.throws)
        decreases coordinator.patience
      {
        var answer;
        answer, turns := OneTurn(document, turns);
        if answer.Raised? {
          return Raised(answer.ending), false, turns;
        }
        if answer.value == Finish || answer.value == TimedOut {
          return Value(document), answer.value == Finish, turns;
        }
      }
    }

    /** The document is what its turns make of the choices heard. */
    ghost predicate Obeys(document: MultiPageDocument, turns: Turns)
      reads document`history, coordinator`answers
    {
      document.history == Built(turns) && ChoicesOf(turns) == ChoicesIn(coordinator.answers)
    }

    /** One turn of the loop of `_scan_multi_page`: a pass, its answer, and a pass taken back if that is what it says. */
    method OneTurn(document: MultiPageDocument, ghost turns: Turns) returns (r: Step<PassAnswer>, ghost turned: Turns)
      requires Growing(document) && document.warnings == [] && document.KeptCount() < MAX_DOCUMENT_PAGES
      requires Heeded() && Obeys(document, turns) && !Aborts(ChoicesOf(turns))
      modifies document, ledger, ledger.history, artefacts`document, disk, signal`received, signal`deferred, coordinator
      ensures Guarded() && ledger.Mirrored()
      ensures Later(old(ledger.history.recorded), old(ledger.history.throws), ledger.history.recorded, ledger.history.throws)
      ensures r.Value? ==> Growing(document) && r.value in {Next, Rescan, Finish, TimedOut}
      ensures r.Value? && r.value in {Finish, TimedOut} ==>
                && document.history.Adding?
                && document.KeptCount() < MAX_DOCUMENT_PAGES + MAX_PAGES_PER_PASS
                && (document.warnings == [] <==> r.value == Finish)
      ensures r.Value? && r.value in {Next, Rescan} ==>
                && document.warnings == []
                && document.KeptCount() < MAX_DOCUMENT_PAGES
                && coordinator.patience < old(coordinator.patience)
      ensures r == Value(Finish) ==> document.KeptCount() > 0 && coordinator.Last() == Finish
      ensures r.Value? ==> Heeded() && Obeys(document, turned)
      ensures r.Value? ==> turned.Turn? && turned.before == turns && turned.choice in {None, Some(r.value)}
      ensures r.Value? && turned.choice == None ==> r.value == TimedOut
      ensures r == Raised(Cancelled) <==> coordinator.GaveUp()
    {
      ghost var before, asked := document.history, false;
      r, asked := PassAndAnswer(document);
      turned := turns;
      if r.Value? {
        turned := Turn(turns, if document.history == before then None else Some(document.history.last),
                       if asked then Some(r.value) else None);
      }
      if r == Value(Rescan) {
        var taken := RescanLast(document);
        if taken.Raised? {
          r := Raised(taken.ending);
        }
      }
    }

    method StartDocument() returns (document: MultiPageDocument)
      requires Guarded() && ledger.passes == [] && ledger.flight == [] && artefacts.document == []
      requires ledger.unreadableSheets == 0 && ledger.history.Latest() == 0 && Tidy({}, disk.files, disk.faults == 0)
      ensures fresh(document) && Growing(document) && document.warnings == [] && document.KeptCount() == 0
    {
      document := new MultiPageDocument();
      assert PathSet([]) == {};
    }

    /** Re-scan: the last pass is thrown away before it is scanned again. */
    method RescanLast(document: MultiPageDocument) returns (r: Step<()>)
      requires Growing(document) && document.history.Adding?
      requires RescansAsked(coordinator.answers) == Rescans(ledger.history.throws) + 1
      modifies document, ledger, ledger.history`throws, artefacts`document, disk`files, disk`faults, signal`received, signal`deferred
      ensures Guarded() && ledger.Mirrored()
      ensures Later(old(ledger.history.recorded), old(ledger.history.throws), ledger.history.recorded, ledger.history.throws)
      ensures r.Value? ==> Growing(document) && document.KeptCount() <= old(document.KeptCount())
      ensures r.Value? ==> Heeded() && document.history == old(document.history).before
      ensures document.warnings == old(document.warnings)
      ensures coordinator.answers == old(coordinator.answers) && coordinator.broken == old(coordinator.broken)
      ensures coordinator.patience == old(coordinator.patience)
      ensures r.Raised? ==> r.ending == Interrupted
    {
      ghost var last := document.history.last;
      document.Totals();
      KeptCounts(last.pages, last.skipped);
      r, last := DiscardLastPass(document);
      if r.Value? {
        HoldStays(document.history);
        document.Totals();
      }
    }

    /** Register a pass before it runs, and scan it beside the passes already in flight. */
    method ScanBeside(part: Part, pass: Label) returns (sink: SpooledPageSink, r: Step<ScanBatch>)
      requires Guarded() && ledger.Mirrored() && artefacts.document == []
      requires NoneOf(FlightFiles(ledger.flight), pass) && pass !in ThrownPasses(ledger.history.throws)
      requires ledger.history.failed == NoFailure
      modifies ledger`passes, ledger`flight, ledger.history`recorded, ledger.history`batches
      modifies disk, signal`received, signal`deferred
      ensures fresh(sink) && sink.Valid() && sink.pass == pass
      ensures Guarded() && ledger.Mirrored()
      ensures old(ledger.history.recorded).Keys <= ledger.history.recorded.Keys
      ensures ledger.passes == old(ledger.passes) + [Registered(part, sink)]
      ensures ledger.flight == old(ledger.flight) + [Pass(part, sink.records)]
      ensures r.Value? ==> r.value.pages == sink.records && ledger.history.batches == Batched(old(ledger.history.batches), Returned(pass, r.value))
      ensures r.Raised? ==> PassEnds(r.ending) && ledger.history.batches == old(ledger.history.batches)
    {
      sink := new SpooledPageSink(pass);
      ledger.Register(part, sink);
      ghost var before := old(ledger.flight);
      assert PathSet(artefacts.document) + FlightFiles(before) == FlightFiles(before);
      r := ScanPages(sink, ledger.history, disk, signal, FlightFiles(before));
      // From here the ledger's view of the pass is what its sink holds.
      FlightAppends(before, Pass(part, sink.records));
      ledger.flight := before + [Pass(part, sink.records)];
      ledger.MirrorGrows(part, sink);
    }

    /**
     * `_scan_simplex`: one pass, simplex, hardware duplex or flatbed.  However it ends, what it
     * recorded stays owed and in flight: nothing here can throw a pass away.
     */
    method ScanSimplex() returns (r: Step<ScanBatch>)
      requires Guarded() && ledger.passes == [] && ledger.flight == [] && artefacts.document == []
      requires ledger.history.throws == NoThrows && ledger.history.failed == NoFailure && ledger.history.batches == NoBatch
      modifies ledger`passes, ledger`flight, ledger.history`recorded, ledger.history`batches
      modifies disk, signal`received, signal`deferred
      ensures Guarded() && ledger.Mirrored()
      ensures old(ledger.history.recorded).Keys <= ledger.history.recorded.Keys
      ensures r.Value? ==>
                && r.value.pages != []
                && ledger.history.batches == Batched(NoBatch, Returned(SpoolNames.PassA, r.value))
                && ledger.flight == [Pass(PartialPart, r.value.pages)]
                && PathSet(r.value.pages) == Owed().Keys && |r.value.pages| == |Owed()|
      ensures r.Raised? ==> r.ending.Failed? || r.ending == Interrupted
    {
      var sink, scanned := ScanBeside(PartialPart, SpoolNames.PassA);
      FlightAppends([], Pass(PartialPart, sink.records));
      if scanned.Value? && scanned.value.pages == [] {
        return Raised(Failed(NoPages));
      }
      assert PathSet([]) + PathSet(sink.records) == PathSet(sink.records);
      SinkCount(sink.records, sink.pass);
      return scanned;
    }

    /** The flip wait between the passes: only a press lets pass B start. */
    method AwaitFlip() returns (r: Step<()>)
      requires !signal.settled && flips.outcome == None
      modifies flips, signal`received, signal`deferred
      ensures match flips.outcome
              case None => r == Raised(Interrupted)
              case Some(Continued) => r.Value?
              case Some(Aborted(broken)) => r == Raised(if broken then Failed(BrokenPrompt) else Cancelled)
              case Some(FlipTimeout) => r == Raised(Failed(FlipTimedOut))
              case Some(FlipStopped) => r == Raised(Interrupted)
    {
      if { case !signal.received => :- signal.Land(); case true => }
      var outcome :- flips.WaitForFlip(signal);
      match outcome
      case Continued => r := Value(());
      case Aborted(broken) => r := Raised(if broken then Failed(BrokenPrompt) else Cancelled);
      case FlipTimeout => r := Raised(Failed(FlipTimedOut));
      case FlipStopped => r := Raised(Interrupted);
    }

    /** Pass A, and the flip unless it stopped at its cap. */
    method ScanFronts() returns (sink: SpooledPageSink, r: Step<ScanBatch>)
      requires Guarded() && ledger.passes == [] && ledger.flight == [] && artefacts.document == [] && ledger.unreadableSheets == 0
      requires ledger.history.throws == NoThrows && ledger.history.failed == NoFailure && ledger.history.batches == NoBatch && flips.outcome == None
      modifies ledger, ledger.history`recorded, ledger.history`batches, disk, flips, signal`received, signal`deferred
      ensures fresh(sink) && sink.Valid() && sink.pass == SpoolNames.PassA
      ensures Guarded() && ledger.Mirrored() && ledger.flight == [Pass(FrontsPart, sink.records)]
      ensures old(ledger.history.recorded).Keys <= ledger.history.recorded.Keys
      ensures Counted(ledger.history.batches, ledger.unreadableSheets, r == Raised(Interrupted))
      ensures r.Value? ==>
                && r.value.pages == sink.records != []
                && ledger.history.batches == Batched(NoBatch, Returned(SpoolNames.PassA, r.value))
                && flips.outcome == if r.value.cap.Some? then None else Some(Continued)
      ensures r == Raised(Cancelled) <==> flips.outcome == Some(Aborted(false))
    {
      sink, r := ScanBeside(FrontsPart, SpoolNames.PassA);
      if r.Value? {
        r := FlipFronts(r.value);
      }
    }

    /** Pass A needs a page, and the flip unless it stopped at its cap. */
    method FlipFronts(batch: ScanBatch) returns (r: Step<ScanBatch>)
      requires !signal.settled && flips.outcome == None
      modifies ledger`unreadableSheets, flips, signal`received, signal`deferred
      ensures ledger.unreadableSheets == old(ledger.unreadableSheets) + batch.rejected
              || (r == Raised(Interrupted) && ledger.unreadableSheets == old(ledger.unreadableSheets))
      ensures r.Value? ==>
                && r.value == batch && batch.pages != []
                && flips.outcome == if batch.cap.Some? then None else Some(Continued)
      ensures r == Raised(Cancelled) <==> flips.outcome == Some(Aborted(false))
    {
      if { case !signal.received => :- signal.Land(); case true => }
      ledger.unreadableSheets := ledger.unreadableSheets + batch.rejected;
      if batch.pages == [] {
        return Raised(Failed(NoPages));
      }
      if batch.cap.None? {
        var _ :- AwaitFlip();
      }
      return Value(batch);
    }

    /** The sheets a pass could not read, unless a signal lands before they are counted. */
    method CountRejects(batch: ScanBatch) returns (r: Step<()>)
      requires Guarded() && ledger.Mirrored()
      modifies ledger`unreadableSheets, signal`received, signal`deferred
      ensures Guarded() && ledger.Mirrored()
      ensures ledger.unreadableSheets == old(ledger.unreadableSheets) + batch.rejected
              || (r == Raised(Interrupted) && ledger.unreadableSheets == old(ledger.unreadableSheets))
      ensures r.Raised? ==> r.ending == Interrupted
    {
      if { case !signal.received => :- signal.Land(); case true => }
      ledger.unreadableSheets := ledger.unreadableSheets + batch.rejected;
      if { case !signal.received => :- signal.Land(); case true => }
      return Value(());
    }

    /** Pass B, beside the fronts. */
    method ScanBacks(frontSink: SpooledPageSink) returns (sink: SpooledPageSink, r: Step<ScanBatch>)
      requires Guarded() && ledger.Mirrored() && artefacts.document == [] && ledger.unreadableSheets == RejectsIn(ledger.history.batches)
      requires frontSink.Valid() && frontSink.pass == SpoolNames.PassA
      requires ledger.flight == [Pass(FrontsPart, frontSink.records)] && ledger.history.throws == NoThrows && ledger.history.failed == NoFailure
      modifies ledger, ledger.history`recorded, ledger.history`batches, disk, signal`received, signal`deferred
      ensures Guarded() && ledger.Mirrored()
      ensures old(ledger.history.recorded).Keys <= ledger.history.recorded.Keys
      ensures ledger.flight == [Pass(FrontsPart, frontSink.records)] + [Pass(BacksPart, sink.records)]
      ensures Counted(ledger.history.batches, ledger.unreadableSheets, r == Raised(Interrupted))
      ensures r.Value? ==>
                && r.value.pages == sink.records != []
                && ledger.history.batches == Batched(old(ledger.history.batches), Returned(SpoolNames.PassB, r.value))
                && PathSet(frontSink.records) + PathSet(sink.records) == Owed().Keys
                && |frontSink.records| + |sink.records| == |Owed()|
      ensures r.Raised? ==> r.ending != Cancelled
    {
      assert NoneOf(FlightFiles(ledger.flight), SpoolNames.PassB) by {
        OnePassFiles(ledger.flight[0]);
      }
      sink, r := ScanBeside(BacksPart, SpoolNames.PassB);
      if r.Raised? {
        return;
      }
      var counted := CountRejects(r.value);
      if counted.Raised? {
        r := Raised(counted.ending);
        return;
      }
      if r.value.pages == [] {
        r := Raised(Failed(ScannerFault));
        return;
      }
      BothSides(frontSink, sink);
    }

    /**
     * `_scan_manual_duplex`: fronts, a flip, and backs.  Position pairs the passes only when
     * every sheet was read on both; otherwise they stay two halves.  Whatever it ends with is
     * made of the very batches the scanner returned, pass B only after a press.
     */
    method ScanManualDuplex() returns (r: Step<Acquired>, ghost front: ScanBatch, ghost back: ScanBatch)
      requires Guarded() && ledger.passes == [] && ledger.flight == [] && artefacts.document == [] && ledger.unreadableSheets == 0
      requires ledger.history.throws == NoThrows && ledger.history.failed == NoFailure && ledger.history.batches == NoBatch && flips.outcome == None
      modifies ledger, ledger.history`recorded, ledger.history`batches, disk, flips, signal`received, signal`deferred
      ensures Guarded() && ledger.Mirrored()
      ensures old(ledger.history.recorded).Keys <= ledger.history.recorded.Keys
      ensures Counted(ledger.history.batches, ledger.unreadableSheets, r == Raised(Interrupted))
      ensures r.Value? ==> CombinesBatches(r.value, ledger.history.batches, front, back)
      ensures r.Value? && front.cap.Some? ==> flips.outcome == None
      ensures r.Value? && front.cap.None? ==> flips.outcome == Some(Continued)
      ensures r.Value? ==> ledger.flight == DuplexFlight(front, back)
      ensures r.Value? ==> AcquiredFiles(r.value) == Owed().Keys && |AcquiredPages(r.value)| == |Owed()|
      ensures r == Raised(Cancelled) <==> flips.outcome == Some(Aborted(false))
    {
      front, back := ScanBatch([], 0, None), ScanBatch([], 0, None);
      var frontSink, frontScanned := ScanFronts();
      if frontScanned.Raised? {
        r := Raised(frontScanned.ending);
        return;
      }
      front := frontScanned.value;
      if frontScanned.value.cap.Some? {
        r := FrontsAlone(frontSink, frontScanned.value, back);
      } else {
        r, back := PairFronts(frontSink, frontScanned.value);
      }
    }

    /** Pass B ended too, so the pages of both are all the run has. */
    lemma BothSides(frontSink: SpooledPageSink, backSink: SpooledPageSink)
      requires Guarded() && artefacts.document == [] && frontSink.Valid() && backSink.Valid() && frontSink.pass != backSink.pass
      requires ledger.flight == [Pass(FrontsPart, frontSink.records)] + [Pass(BacksPart, backSink.records)]
      ensures PathSet(frontSink.records) + PathSet(backSink.records) == Owed().Keys
      ensures |frontSink.records| + |backSink.records| == |Owed()|
    {
      OnePassFiles(Pass(FrontsPart, frontSink.records));
      FlightAppends([Pass(FrontsPart, frontSink.records)], Pass(BacksPart, backSink.records));
      assert PathSet([]) == {};
      SinksCount(frontSink.records, frontSink.pass, backSink.records, backSink.pass);
    }

    /** Pass A stopped at its cap, so its pages are all the run has. */
    method FrontsAlone(frontSink: SpooledPageSink, front: ScanBatch, ghost back: ScanBatch) returns (r: Step<Acquired>)
      requires Guarded() && ledger.Mirrored() && artefacts.document == [] && frontSink.Valid()
      requires ledger.flight == [Pass(FrontsPart, frontSink.records)]
      requires ledger.history.batches == Batched(NoBatch, Returned(SpoolNames.PassA, front))
      requires front.pages == frontSink.records != [] && front.cap.Some?
      ensures Guarded() && ledger.Mirrored()
      ensures r.Value? && CombinesBatches(r.value, ledger.history.batches, front, back)
      ensures ledger.flight == DuplexFlight(front, back)
      ensures AcquiredFiles(r.value) == Owed().Keys && |AcquiredPages(r.value)| == |Owed()|
    {
      OnePassFiles(ledger.flight[0]);
      assert PathSet([]) + PathSet(frontSink.records) == PathSet(frontSink.records);
      SinkCount(frontSink.records, frontSink.pass);
      return Value(OneBatch(front));
    }

    /** Scan pass B and put it together with pass A. */
    method PairFronts(frontSink: SpooledPageSink, front: ScanBatch) returns (r: Step<Acquired>, ghost back: ScanBatch)
      requires Guarded() && ledger.Mirrored() && artefacts.document == [] && ledger.unreadableSheets == RejectsIn(ledger.history.batches)
      requires frontSink.Valid() && frontSink.pass == SpoolNames.PassA && ledger.flight == [Pass(FrontsPart, frontSink.records)]
      requires ledger.history.throws == NoThrows && ledger.history.failed == NoFailure && ledger.history.batches == Batched(NoBatch, Returned(SpoolNames.PassA, front))
      requires front.pages == frontSink.records != [] && front.cap.None? && flips.outcome == Some(Continued)
      modifies ledger, ledger.history`recorded, ledger.history`batches, disk, signal`received, signal`deferred
      ensures Guarded() && ledger.Mirrored()
      ensures old(ledger.history.recorded).Keys <= ledger.history.recorded.Keys
      ensures Counted(ledger.history.batches, ledger.unreadableSheets, r == Raised(Interrupted))
      ensures r.Value? ==>
                && CombinesBatches(r.value, ledger.history.batches, front, back)
                && ledger.flight == DuplexFlight(front, back)
                && AcquiredFiles(r.value) == Owed().Keys && |AcquiredPages(r.value)| == |Owed()|
      ensures flips.outcome == Some(Continued)
      ensures r.Raised? ==> r.ending != Cancelled
    {
      var sink, scanned := ScanBacks(frontSink);
      back := if scanned.Value? then scanned.value else ScanBatch([], 0, None);
      r := Combine(front, scanned);
      if r.Value? {
        assert ledger.history.batches == DuplexBatches(front, back);
      }
    }

    /** What becomes of the two passes. */
    method Combine(front: ScanBatch, back: Step<ScanBatch>) returns (r: Step<Acquired>)
      requires front.pages != [] && front.cap.None? && (back.Value? ==> back.value.pages != [])
      ensures back.Raised? ==> r == Raised(back.ending)
      ensures back.Value? ==>
                && r.Value? && Combines(r.value, front, back.value)
                && AcquiredFiles(r.value) == PathSet(front.pages) + PathSet(back.value.pages)
                && |AcquiredPages(r.value)| == |front.pages| + |back.value.pages|
    {
      var backs :- back;
      var rejected := front.rejected + backs.rejected;
      if Splits(front, backs) {
        PathSetAppends(front.pages, backs.pages);
        return Value(Halves(DuplexMismatch(front.pages, backs.pages, rejected, backs.cap)));
      }
      var interleaved := InterleaveDuplex(front.pages, backs.pages);
      r := Raised(Failed(ScannerFault));
      if interleaved.Value? {
        InterleavedAt(front.pages, backs.pages);
        InterleavedFiles(front.pages, backs.pages);
        r := Value(OneBatch(ScanBatch(interleaved.value, rejected, None)));
      }
    }

    /** At every step after an acquisition too, the guard can still keep all the run owes. */
    ghost predicate Keepable()
      reads ledger.history`recorded, ledger.history`throws, ledger`flight, this`removed
      reads artefacts`stage, artefacts`document, artefacts`pdfs, artefacts`accepted, disk`files, signal`settled
    {
      && Recoverable(Owed(), artefacts.stage, artefacts.document, removed, ledger.flight, artefacts.pdfs, disk.files)
      && Outside(disk.files) == outside
      && (artefacts.pdfs != [] ==> AllThere(artefacts.pdfs, disk.files))
      && (artefacts.stage != Delivering ==> artefacts.accepted == map[])
      && !signal.settled
    }

    /**
     * Every PDF paperless-ngx has taken is on record, as accepted or as possibly arrived, and was
     * taken once; and what is on record as accepted was.
     */
    ghost predicate Flagged()
      reads artefacts`accepted, artefacts`pdfs, paperless`took, paperless`made, paperless`tasks, paperless`copied
    {
      && paperless.OnceEach()
      && paperless.took.Keys <= artefacts.accepted.Keys
      && (forall p | p in artefacts.accepted :: p in artefacts.pdfs)
      && TrulyAccepted()
    }

    /** A PDF on record as accepted was: there is its task, or its copy. */
    ghost predicate TrulyAccepted()
      reads artefacts`accepted, paperless`tasks, paperless`copied
    {
      && RecordedAs(artefacts.accepted, AcceptedAsTask) <= paperless.tasks.Keys
      && RecordedAs(artefacts.accepted, SavedToConsumeFolder) <= paperless.copied
    }

    /** Whatever paperless-ngx took is one of the PDFs that are still there, whole. */
    ghost predicate Sent()
      reads disk`files, paperless`took
    {
      Held(paperless.took.Keys, disk.files) == paperless.took
    }

    /** The run is settled, and paperless-ngx has exactly its PDFs, whole. */
    ghost predicate AllDelivered()
      reads artefacts`stage, artefacts`pdfs, disk`files, signal`settled, paperless`took
    {
      && signal.settled
      && artefacts.stage == Delivered
      && AllThere(artefacts.pdfs, disk.files)
      && Outside(disk.files) == outside
      && paperless.took == Contents(artefacts.pdfs, disk.files)
    }

    /** The stage is FILTERING from here, and the guard keeps the unfiltered document whole. */
    method EnterFiltering(records: seq<PageRecord>) returns (r: Step<()>)
      requires Guarded() && records != [] && PathSet(records) == Owed().Keys
      requires artefacts.document == records || (artefacts.document == [] && FlightFiles(ledger.flight) == Owed().Keys)
      modifies artefacts`stage, artefacts`document, signal`received, signal`deferred
      ensures Keepable()
      ensures r.Value? ==> artefacts.stage == Filtering && artefacts.document == records
      ensures r.Raised? ==> r.ending == Interrupted
    {
      assert PathSet(records) + FlightFiles(ledger.flight) == Owed().Keys;
      if { case !signal.received => :- signal.Land(); case true => }
      artefacts.stage := Filtering;
      if { case !signal.received => :- signal.Land(); case true => }
      artefacts.document := records;
      if { case !signal.received => :- signal.Land(); case true => }
      return Value(());
    }

    /** `_assemble`, and the two assemblies of a mismatch: the guard keeps the page files meanwhile. */
    method Assemble(records: seq<PageRecord>, part: Part) returns (r: Step<Path>)
      requires Keepable() && artefacts.stage in {Filtering, Assembling} && artefacts.pdfs == []
      requires records != [] && PathSet(records) <= Owed().Keys
      modifies artefacts`stage, disk`files, disk`faults, signal`received, signal`deferred
      ensures Keepable()
      ensures r.Value? ==>
                && artefacts.stage == Assembling
                && r.value == AssembledPdf(part)
                && disk.files == old(disk.files)[r.value := ImagesOwed(Owed(), records)]
      ensures r.Raised? ==> r.ending in {Interrupted, Failed(PdfFault), Failed(DiskSpace)}
    {
      if { case !signal.received => :- signal.Land(); case true => }
      artefacts.stage := Assembling;
      if { case !signal.received => :- signal.Land(); case true => }
      var pdf := AssembledPdf(part);
      ghost var images := ImagesOwed(Owed(), records);
      AssembledHolds(Owed(), disk.files, records);
      assert Safe(Owed(), Owed().Keys, disk.files[pdf := images]) && Outside(disk.files[pdf := images]) == outside by {
        SafeBeside(Owed(), Owed().Keys, disk.files, pdf, images);
      }
      var built := disk.AssemblePdf(PathsOf(records), pdf);
      if !built {
        var full: bool := *;
        return Raised(Failed(if full then DiskSpace else PdfFault));
      }
      if { case !signal.received => :- signal.Land(); case true => }
      return Value(pdf);
    }

    /** Record the PDFs, and only then the stage that makes the guard keep them. */
    method BeginDelivery(pdfs: seq<Path>, ghost skipped: seq<nat>) returns (r: Step<()>)
      requires Keepable() && artefacts.stage == Assembling && artefacts.pdfs == []
      requires pdfs != [] && Distinct(pdfs) && AllThere(pdfs, disk.files)
      requires Due(Owed(), Delivering, artefacts.document, skipped).Values <= PdfImages(pdfs, disk.files)
      modifies artefacts`pdfs, artefacts`stage, this`removed, signal`received, signal`deferred
      ensures Keepable()
      ensures artefacts.stage == Delivering ==> removed == skipped
      ensures r.Value? ==> artefacts.stage == Delivering && artefacts.pdfs == pdfs
      ensures r.Raised? ==> r.ending == Interrupted && artefacts.stage in {Assembling, Delivering}
    {
      if { case !signal.received => :- signal.Land(); case true => }
      artefacts.pdfs := pdfs;
      if { case !signal.received => :- signal.Land(); case true => }
      artefacts.stage := Delivering;
      removed := skipped;
      if { case !signal.received => :- signal.Land(); case true => }
      return Value(());
    }

    /** `_accepted_how`. */
    static function HowTaken(upload: PaperlessUpload.Upload): How {
      if upload.ApiDelivery? then AcceptedAsTask else SavedToConsumeFolder
    }

    /** The tasks of the other PDFs are as they were. */
    ghost predicate KeepsTasks(before: map<Path, nat>, pdf: Path)
      reads paperless`tasks
    {
      paperless.tasks - {pdf} == before - {pdf}
    }

    /** The `try` of `_upload`: the record is made inside it. */
    method SendAndRecord(pdf: Path) returns (r: Step<PaperlessUpload.Upload>)
      requires !signal.settled && Flagged() && pdf in artefacts.pdfs && pdf in disk.files && Sent() && pdf !in paperless.took && pdf !in artefacts.accepted
      modifies artefacts`accepted, paperless`took, paperless`made, paperless`tasks, paperless`copied, signal`received, signal`deferred
      ensures paperless.took.Keys <= artefacts.accepted.Keys + {pdf}
      ensures paperless.took in {old(paperless.took), old(paperless.took)[pdf := disk.files[pdf]]}
      ensures Sent() && paperless.OnceEach() && TrulyAccepted() && KeepsTasks(old(paperless.tasks), pdf) && old(paperless.copied) <= paperless.copied
      ensures r.Value? ==> paperless.Came(pdf, r.value)
      ensures r.Value? ==> paperless.took == old(paperless.took)[pdf := disk.files[pdf]]
      ensures artefacts.accepted == old(artefacts.accepted)
              || (pdf in artefacts.accepted && artefacts.accepted == old(artefacts.accepted)[pdf := artefacts.accepted[pdf]]
                  && artefacts.accepted[pdf] in {AcceptedAsTask, SavedToConsumeFolder})
      ensures r.Value? ==> pdf in artefacts.accepted && artefacts.accepted[pdf] in {AcceptedAsTask, SavedToConsumeFolder}
      ensures r.Raised? ==> r.ending in {Interrupted, Failed(UploadFailed), Failed(UncertainSend)}
      ensures r.Value? ==> artefacts.accepted[pdf] == HowTaken(r.value)
      ensures r == Raised(Failed(UploadFailed)) ==> Flagged() && artefacts.accepted == old(artefacts.accepted)
      ensures r == Raised(Failed(UncertainSend)) ==> artefacts.accepted == old(artefacts.accepted)
    {
      SentOneMore(pdf);
      var upload :- paperless.Upload(pdf, disk.files[pdf], signal);
      if { case !signal.received => :- signal.Land(); case true => }
      artefacts.accepted := artefacts.accepted[pdf := HowTaken(upload)];
      if { case !signal.received => :- signal.Land(); case true => }
      return Value(upload);
    }

    lemma SentOneMore(pdf: Path)
      requires Sent() && pdf in disk.files
      ensures Held(paperless.took[pdf := disk.files[pdf]].Keys, disk.files) == paperless.took[pdf := disk.files[pdf]]
    {
      forall p | p in paperless.took ensures p in disk.files && disk.files[p] == paperless.took[p] {
        assert p in Held(paperless.took.Keys, disk.files);
      }
    }

    /**
     * `_upload`: once paperless-ngx has, or may have, the PDF, the record says so, and what it
     * says is never weakened afterwards.
     */
    method Upload(pdf: Path) returns (r: Step<PaperlessUpload.Upload>, ghost noted: Option<How>)
      requires !signal.settled && Flagged() && pdf in artefacts.pdfs && pdf !in artefacts.accepted && pdf in disk.files && Sent()
      modifies artefacts`accepted, paperless`took, paperless`made, paperless`tasks, paperless`copied, signal`received, signal`deferred
      ensures Flagged()
      ensures paperless.took in {old(paperless.took), old(paperless.took)[pdf := disk.files[pdf]]}
      ensures Sent() && KeepsTasks(old(paperless.tasks), pdf) && old(paperless.copied) <= paperless.copied
      ensures r.Value? ==> paperless.Came(pdf, r.value)
      ensures r.Value? ==> paperless.took == old(paperless.took)[pdf := disk.files[pdf]]
      ensures forall p | p in old(artefacts.accepted) ::
                p in artefacts.accepted && artefacts.accepted[p] == old(artefacts.accepted)[p]
      ensures artefacts.accepted.Keys <= old(artefacts.accepted).Keys + {pdf}
      ensures r.Value? ==> pdf in artefacts.accepted && artefacts.accepted[pdf] == HowTaken(r.value)
      ensures r.Raised? ==> r.ending in {Interrupted, Failed(UploadFailed), Failed(UncertainSend)}
      ensures r == Raised(Failed(UploadFailed)) ==> artefacts.accepted == old(artefacts.accepted)
      ensures r == Raised(Failed(UncertainSend)) ==> artefacts.accepted == old(artefacts.accepted)[pdf := SentWithoutAnswer]
      ensures noted in {None, Some(AcceptedAsTask), Some(SavedToConsumeFolder)} && (r.Value? ==> noted.Some?)
      ensures noted.Some? ==> pdf in artefacts.accepted && artefacts.accepted[pdf] == noted.value
      ensures r == Raised(Interrupted) && noted.None? ==> pdf in artefacts.accepted && artefacts.accepted[pdf] == MayHaveArrived
    {
      r := SendAndRecord(pdf);
      noted := if pdf in artefacts.accepted then Some(artefacts.accepted[pdf]) else None;
      if r == Raised(Interrupted) && pdf !in artefacts.accepted {
        artefacts.accepted := artefacts.accepted[pdf := MayHaveArrived];
      } else if r == Raised(Failed(UncertainSend)) && pdf !in artefacts.accepted {
        artefacts.accepted := artefacts.accepted[pdf := SentWithoutAnswer];
      }
    }

    /** `_delivered`: settle first, absorbing a signal that lands meanwhile, and then the stage. */
    method SetDelivered()
      modifies artefacts`stage, signal
      ensures signal.settled && artefacts.stage == Delivered
    {
      signal.SettleAbsorbing();
      artefacts.stage := Delivered;
    }

    /** Upload the one PDF there is, and wait for its task. */
    method FileDocument(pdf: Path) returns (r: Step<Outcome>)
      requires !signal.settled && Flagged() && Sent() && artefacts.pdfs == [pdf] && artefacts.accepted == map[] && pdf in disk.files
      modifies artefacts`accepted, paperless, signal`received, signal`deferred
      ensures Flagged() && Sent()
      ensures r.Value? ==> paperless.AllFiled(r.value == Success) && paperless.took == map[pdf := disk.files[pdf]]
      ensures r.Value? ==> pdf in artefacts.accepted && (r.value == Success <==> artefacts.accepted[pdf] == AcceptedAsTask)
      ensures r.Raised? ==> r.ending != Cancelled
    {
      assert paperless.took == map[];
      var sent, _ := Upload(pdf);
      var upload :- sent;
      if { case !signal.received => :- signal.Land(); case true => }
      var _ :- paperless.Poll(upload, signal);
      assert paperless.Filed(pdf, upload);
      return Value(if upload.ApiDelivery? then Success else Fallback);
    }

    /** `_deliver_document`: upload the PDF, wait for its task, and settle the run. */
    method DeliverDocument(pdf: Path, ghost skipped: seq<nat>) returns (r: Step<Outcome>)
      requires Keepable() && artefacts.stage == Assembling && artefacts.pdfs == [] && Flagged()
      requires artefacts.accepted == map[] && AllThere([pdf], disk.files)
      requires Due(Owed(), Delivering, artefacts.document, skipped).Values <= PdfImages([pdf], disk.files)
      modifies artefacts`stage, artefacts`pdfs, artefacts`accepted, this`removed, paperless, signal
      ensures Flagged()
      ensures Sent()
      ensures r.Raised? ==> Keepable() && artefacts.stage in {Assembling, Delivering}
      ensures r.Raised? && artefacts.stage == Delivering ==> removed == skipped
      ensures r.Raised? ==> r.ending != Cancelled
      ensures r.Value? ==> paperless.AllFiled(r.value == Success)
      ensures r.Value? ==> AllDelivered() && artefacts.pdfs == [pdf] && paperless.took == map[pdf := disk.files[pdf]]
      ensures r.Value? ==> pdf in artefacts.accepted && (r.value == Success <==> artefacts.accepted[pdf] == AcceptedAsTask)
    {
      assert paperless.took.Keys == {};
      var _ :- BeginDelivery([pdf], skipped);
      var outcome :- FileDocument(pdf);
      SetDelivered();
      OneContent(pdf, disk.files);
      return Value(outcome);
    }

    /**
     * A delivery is done as it was planned: settled, paperless-ngx has exactly the PDFs of the
     * plan with the images the run owes, and the result says so.
     */
    ghost predicate Done(result: ScanResult, plan: Plan)
      reads ledger.history`recorded, ledger.history`throws, artefacts`stage, artefacts`pdfs, disk`files, signal`settled
      reads paperless`took, paperless`confirmed, paperless`copied
    {
      && AllDelivered()
      && paperless.AllFiled(result.outcome == Success)
      && PathSet(plan.Pages()) <= Owed().Keys
      && paperless.took == Uploads(plan, Owed())
      && Reports(result, plan)
    }

    /** What a run that is delivering leaves out is what its plan does. */
    ghost predicate Follows(plan: Plan)
      reads artefacts`stage, artefacts`document, this`removed
    {
      artefacts.stage == Delivering ==> (
        && artefacts.document == (if plan.TwoHalves? then [] else plan.Pages())
        && (!plan.TwoHalves? ==> removed == plan.Removed()))
    }

    /** `_drop_blank_pages`: refused when every page looks blank. */
    method DropBlankPages(pages: seq<PageRecord>) returns (r: Step<(seq<PageRecord>, seq<nat>)>)
      requires pages != []
      ensures r.Raised? ==> r.ending == Failed(AllPagesBlank)
      ensures r.Raised? <==> detectsBlanks && forall page | page in pages :: IsBlank(page, threshold)
      ensures r.Value? ==>
                && r.value.1 == Blanks(pages, detectsBlanks, threshold)
                && Positions(r.value.1, |pages|)
                && r.value.0 == Kept(pages, r.value.1) != []
                && |r.value.0| + |r.value.1| == |pages|
    {
      if !detectsBlanks {
        NothingRemoved(pages);
        return Value((pages, []));
      }
      var kept, removed := FilterBlankPages(pages, threshold);
      if kept == [] {
        AllRemoved(pages, removed);
        forall page | page in pages ensures IsBlank(page, threshold) {
          var i :| 0 <= i < |pages| && pages[i] == page;
          assert i + 1 in removed;
        }
        return Raised(Failed(AllPagesBlank));
      }
      KeptOnlyHolds(pages, removed, kept[0]);
      return Value((kept, removed));
    }

    /** Assemble one document without its removed pages, and deliver it. */
    method DeliverPages(ghost plan: Plan, kept: seq<PageRecord>, count: nat, skipped: seq<nat>) returns (r: Step<ScanResult>)
      requires Keepable() && Flagged() && artefacts.stage == Filtering && artefacts.accepted == map[]
      requires !plan.TwoHalves? && artefacts.document == plan.Pages() != [] && skipped == plan.Removed() && count == |plan.Pages()|
      requires Positions(skipped, count) && kept == Kept(plan.Pages(), skipped) == plan.Keeps() != []
      modifies artefacts`stage, artefacts`pdfs, artefacts`accepted, this`removed, disk`files, disk`faults, paperless, signal
      ensures Flagged() && Sent()
      ensures r.Raised? ==> Keepable() && Follows(plan)
      ensures r.Value? ==> Done(r.value, plan)
      ensures r.Raised? ==> r.ending != Cancelled
    {
      assert PathSet(plan.Pages()) == Owed().Keys;
      assert |kept| == count - |skipped| by {
        KeptCounts(plan.Pages(), skipped);
      }
      assert PathSet(kept) <= Owed().Keys by {
        KeptFiles(plan.Pages(), skipped);
      }
      var pdf :- Assemble(kept, WholePart);
      OwedInImages(Owed(), kept);
      assert PdfImages([pdf][1..], disk.files) == {};
      assert AllThere([pdf][1..], disk.files);
      var outcome :- DeliverDocument(pdf, skipped);
      PagesDone(plan, outcome);
      return Value(ScanResult(outcome, count, |kept|, skipped));
    }

    lemma PagesDone(plan: Plan, outcome: Outcome)
      requires AllDelivered() && artefacts.pdfs == [AssembledPdf(WholePart)] && paperless.AllFiled(outcome == Success)
      requires !plan.TwoHalves? && PathSet(plan.Pages()) == Owed().Keys && PathSet(plan.Keeps()) <= Owed().Keys
      requires AssembledPdf(WholePart) in disk.files && disk.files[AssembledPdf(WholePart)] == ImagesOwed(Owed(), plan.Keeps())
      requires Positions(plan.Removed(), |plan.Pages()|) && |plan.Keeps()| == |plan.Pages()| - |plan.Removed()|
      ensures Done(ScanResult(outcome, |plan.Pages()|, |plan.Keeps()|, plan.Removed()), plan)
    {
      OneContent(AssembledPdf(WholePart), disk.files);
    }

    /** `_finish_document`: filter, assemble and deliver one batch. */
    method FinishDocument(batch: ScanBatch) returns (r: Step<ScanResult>)
      requires ledger.Mirrored()
      requires Guarded() && Flagged() && batch.pages != [] && PathSet(batch.pages) == Owed().Keys
      requires artefacts.document == [] && FlightFiles(ledger.flight) == Owed().Keys
      modifies artefacts`stage, artefacts`document, artefacts`pdfs, artefacts`accepted, this`removed
      modifies disk`files, disk`faults, paperless, signal
      ensures Flagged() && Sent() && ledger.Mirrored()
      ensures r.Raised? ==> Keepable() && Follows(OneDocument(batch.pages, Blanks(batch.pages, detectsBlanks, threshold)))
      ensures r.Value? ==> Done(r.value, OneDocument(batch.pages, Blanks(batch.pages, detectsBlanks, threshold)))
      ensures r.Raised? ==> r.ending != Cancelled
    {
      var _ :- EnterFiltering(batch.pages);
      var filtered :- DropBlankPages(batch.pages);
      r := DeliverPages(OneDocument(batch.pages, filtered.1), filtered.0, |batch.pages|, filtered.1);
      ledger.MirrorStays();
    }

    /** The plan of a document that is finished. */
    lemma DocumentPlan(document: MultiPageDocument)
      requires Growing(document) && document.history.Adding?
      ensures
        var plan := PassesBound(document.history);
        && plan.Pages() == document.records != [] && plan.Removed() == document.removed
        && Kept(document.records, document.removed) == plan.Keeps() && |plan.Keeps()| == document.KeptCount()
        && Positions(document.removed, |document.records|)
        && PathSet(document.records) == Owed().Keys
    {
      document.Totals();
      KeptIsBound(document.history);
      KeptCounts(document.records, document.removed);
      KeptGrowth(document, document.history.before);
    }

    /** `_finish_multi_page`: no filter again, because a page kept on purpose is never removed. */
    method FinishMultiPage(document: MultiPageDocument) returns (r: Step<ScanResult>)
      requires Growing(document) && Flagged() && ledger.Mirrored() && document.history.Adding?
      modifies artefacts`stage, artefacts`document, artefacts`pdfs, artefacts`accepted, this`removed
      modifies disk`files, disk`faults, paperless, signal
      ensures Flagged() && Sent() && ledger.Mirrored()
      ensures r.Raised? ==> Keepable() && Follows(PassesBound(document.history))
      ensures document.KeptCount() == 0 ==> r.Raised? && r.ending in {Interrupted, Failed(AllPagesBlank)}
      ensures r.Value? ==> Done(r.value, PassesBound(document.history))
      ensures r.Raised? ==> r.ending != Cancelled
    {
      DocumentPlan(document);
      r := FinishPasses(document.records, document.removed, document.KeptCount(), PassesBound(document.history));
    }

    /** The passes are delivered as one document, unless they leave no page to upload. */
    method FinishPasses(records: seq<PageRecord>, skipped: seq<nat>, kept: int, ghost plan: Plan) returns (r: Step<ScanResult>)
      requires Guarded() && Flagged() && ledger.Mirrored() && plan.PassesBound?
      requires artefacts.document == records == plan.Pages() != [] && PathSet(records) == Owed().Keys
      requires skipped == plan.Removed() && Positions(skipped, |records|)
      requires Kept(records, skipped) == plan.Keeps() && kept == |plan.Keeps()|
      modifies artefacts`stage, artefacts`document, artefacts`pdfs, artefacts`accepted, this`removed
      modifies disk`files, disk`faults, paperless, signal
      ensures Flagged() && Sent() && ledger.Mirrored()
      ensures r.Raised? ==> Keepable() && Follows(plan)
      ensures kept == 0 ==> r.Raised? && r.ending in {Interrupted, Failed(AllPagesBlank)}
      ensures r.Value? ==> Done(r.value, plan)
      ensures r.Raised? ==> r.ending != Cancelled
    {
      var _ :- EnterFiltering(records);
      if kept == 0 {
        return Raised(Failed(AllPagesBlank));
      }
      r := DeliverPages(plan, Kept(records, skipped), |records|, skipped);
      ledger.MirrorStays();
    }

    /** Both halves of a mismatch are assembled before either is sent, the backs in sheet order. */
    method AssembleHalves(mismatch: DuplexMismatch) returns (r: Step<(Path, Path)>)
      requires Guarded() && artefacts.document == [] && mismatch.fronts != [] && mismatch.backs != []
      requires PathSet(mismatch.fronts) + PathSet(mismatch.backs) == Owed().Keys == FlightFiles(ledger.flight)
      modifies artefacts`stage, disk`files, disk`faults, signal`received, signal`deferred
      ensures Keepable() && artefacts.pdfs == []
      ensures r.Value? ==>
                && artefacts.stage == Assembling
                && r.value == (AssembledPdf(FrontsPart), AssembledPdf(BacksPart))
                && r.value.0 in disk.files && disk.files[r.value.0] == ImagesOwed(Owed(), mismatch.fronts)
                && r.value.1 in disk.files && disk.files[r.value.1] == Reversed(ImagesOwed(Owed(), mismatch.backs))
      ensures r.Raised? ==> r.ending in {Interrupted, Failed(PdfFault), Failed(DiskSpace)} && artefacts.stage != Delivering
    {
      if { case !signal.received => :- signal.Land(); case true => }
      artefacts.stage := Assembling;
      var short := disk.Refuses();
      if short {
        return Raised(Failed(DiskSpace));
      }
      ReversedFiles(Owed(), mismatch.backs);
      var fronts :- Assemble(mismatch.fronts, FrontsPart);
      var backs :- Assemble(Reversed(mismatch.backs), BacksPart);
      return Value((fronts, backs));
    }

    /** Wait for the tasks of both halves. */
    method PollHalves(fronts: PaperlessUpload.Upload, ghost frontsPdf: Path, backs: PaperlessUpload.Upload, ghost backsPdf: Path)
      returns (r: Step<()>)
      requires !signal.settled && paperless.Came(frontsPdf, fronts) && paperless.Came(backsPdf, backs)
      modifies paperless`confirmed, signal`received, signal`deferred
      ensures r.Value? ==> paperless.Filed(frontsPdf, fronts) && paperless.Filed(backsPdf, backs)
      ensures r.Raised? ==> r.ending in {Interrupted, Failed(Unconfirmed)}
    {
      var _ :- paperless.Poll(fronts, signal);
      r := paperless.Poll(backs, signal);
    }

    /** Upload the backs and poll both halves, the fronts being in paperless-ngx already. */
    method FinishHalves(fronts: PaperlessUpload.Upload, ghost frontsPdf: Path, backsPdf: Path)
      returns (r: Step<PaperlessUpload.Upload>)
      requires !signal.settled && Flagged() && backsPdf in artefacts.pdfs && backsPdf !in artefacts.accepted
      requires backsPdf in disk.files && Sent() && frontsPdf != backsPdf && paperless.Came(frontsPdf, fronts)
      modifies artefacts`accepted, paperless, signal`received, signal`deferred
      ensures Flagged() && Sent()
      ensures r.Value? ==> paperless.took == old(paperless.took)[backsPdf := disk.files[backsPdf]]
      ensures r.Value? ==> paperless.Filed(frontsPdf, fronts) && paperless.Filed(backsPdf, r.value)
      ensures r.Value? ==> artefacts.accepted == old(artefacts.accepted)[backsPdf := HowTaken(r.value)]
      ensures r.Raised? ==> r.ending in {Interrupted, Failed(Unconfirmed)}
    {
      var sent, _ := Upload(backsPdf);
      if sent.Value? {
        assert paperless.Came(frontsPdf, fronts) by {
          assert frontsPdf in paperless.tasks <==> frontsPdf in paperless.tasks - {backsPdf};
        }
        var polled := PollHalves(fronts, frontsPdf, sent.value, backsPdf);
        if polled.Raised? {
          sent := Raised(polled.ending);
        }
      }
      // Whatever failed once the fronts had been taken is raised as an unconfirmed filing.
      r := if sent.Raised? && sent.ending.Failed? then Raised(Failed(Unconfirmed)) else sent;
    }

    /** Upload both halves, and wait for their tasks. */
    method FileHalves(fronts: Path, backs: Path) returns (r: Step<Outcome>)
      requires !signal.settled && Flagged() && Sent() && artefacts.pdfs == [fronts, backs] && artefacts.accepted == map[]
      requires fronts != backs && fronts in disk.files && backs in disk.files
      modifies artefacts`accepted, paperless, signal`received, signal`deferred
      ensures Flagged() && Sent()
      ensures r.Value? ==> paperless.AllFiled(r.value == Success) && paperless.took == Contents([fronts, backs], disk.files)
      ensures r.Value? ==> fronts in artefacts.accepted && backs in artefacts.accepted
      ensures r.Value? ==>
                (r.value == Success <==> artefacts.accepted[fronts] == AcceptedAsTask && artefacts.accepted[backs] == AcceptedAsTask)
      ensures r.Raised? ==> r.ending != Cancelled
    {
      assert paperless.took == map[];
      TwoContents(fronts, backs, disk.files);
      var sent, _ := Upload(fronts);
      var frontsResult :- sent;
      assert artefacts.accepted == map[fronts := HowTaken(frontsResult)];
      if { case !signal.received => :- signal.Land(); case true => }
      var backsResult :- FinishHalves(frontsResult, fronts, backs);
      return Value(if frontsResult.ApiDelivery? && backsResult.ApiDelivery? then Success else Fallback);
    }

    /** Send both halves, and settle the run once both are in paperless-ngx. */
    method DeliverHalves(fronts: Path, backs: Path) returns (r: Step<Outcome>)
      requires Keepable() && artefacts.stage == Assembling && artefacts.pdfs == [] && Flagged() && artefacts.document == []
      requires fronts != backs && AllThere([fronts, backs], disk.files)
      requires Owed().Values <= PdfImages([fronts, backs], disk.files)
      modifies artefacts`stage, artefacts`pdfs, artefacts`accepted, this`removed, paperless, signal
      ensures Flagged()
      ensures Sent()
      ensures r.Raised? ==> Keepable()
      ensures r.Raised? ==> r.ending != Cancelled
      ensures r.Value? ==> paperless.AllFiled(r.value == Success)
      ensures r.Value? ==> AllDelivered() && artefacts.pdfs == [fronts, backs]
      ensures r.Value? ==> fronts in artefacts.accepted && backs in artefacts.accepted
      ensures r.Value? ==>
                (r.value == Success <==> artefacts.accepted[fronts] == AcceptedAsTask && artefacts.accepted[backs] == AcceptedAsTask)
    {
      assert paperless.took.Keys == {};
      assert AllThere([fronts, backs][1..], disk.files) && fronts in disk.files && backs in disk.files;
      var _ :- BeginDelivery([fronts, backs], []);
      var outcome :- FileHalves(fronts, backs);
      SetDelivered();
      return Value(outcome);
    }

    /** `_finish_mismatch`: both halves as two PDFs, unfiltered. */
    method FinishMismatch(mismatch: DuplexMismatch) returns (r: Step<ScanResult>)
      requires ledger.Mirrored()
      requires Guarded() && Flagged() && artefacts.document == [] && mismatch.fronts != [] && mismatch.backs != []
      requires PathSet(mismatch.fronts) + PathSet(mismatch.backs) == Owed().Keys == FlightFiles(ledger.flight)
      modifies artefacts`stage, artefacts`pdfs, artefacts`accepted, this`removed, disk`files, disk`faults, paperless, signal
      ensures Flagged() && Sent() && ledger.Mirrored()
      ensures r.Raised? ==> Keepable() && Follows(TwoHalves(mismatch.fronts, mismatch.backs))
      ensures r.Value? ==> Done(r.value, TwoHalves(mismatch.fronts, mismatch.backs))
      ensures r.Raised? ==> r.ending != Cancelled
    {
      r := DeliverMismatch(mismatch);
      ledger.MirrorStays();
    }

    /** Assemble both halves, and deliver them. */
    method DeliverMismatch(mismatch: DuplexMismatch) returns (r: Step<ScanResult>)
      requires Guarded() && Flagged() && artefacts.document == [] && mismatch.fronts != [] && mismatch.backs != []
      requires PathSet(mismatch.fronts) + PathSet(mismatch.backs) == Owed().Keys == FlightFiles(ledger.flight)
      modifies artefacts`stage, artefacts`pdfs, artefacts`accepted, this`removed, disk`files, disk`faults, paperless, signal
      ensures Flagged() && Sent()
      ensures r.Raised? ==> Keepable() && Follows(TwoHalves(mismatch.fronts, mismatch.backs))
      ensures r.Value? ==> Done(r.value, TwoHalves(mismatch.fronts, mismatch.backs))
      ensures r.Raised? ==> r.ending != Cancelled
    {
      var halves :- AssembleHalves(mismatch);
      assert AllThere([halves.0, halves.1], disk.files) && Owed().Values <= PdfImages([halves.0, halves.1], disk.files) by {
        HalvesHold(Owed(), mismatch.fronts, mismatch.backs, halves.0, halves.1, disk.files);
      }
      var outcome :- DeliverHalves(halves.0, halves.1);
      var pages := |mismatch.fronts| + |mismatch.backs|;
      HalvesDone(mismatch, outcome);
      return Value(ScanResult(outcome, pages, pages, []));
    }

    lemma HalvesDone(mismatch: DuplexMismatch, outcome: Outcome)
      requires AllDelivered() && artefacts.pdfs == [AssembledPdf(FrontsPart), AssembledPdf(BacksPart)]
      requires paperless.AllFiled(outcome == Success)
      requires PathSet(mismatch.fronts) + PathSet(mismatch.backs) == Owed().Keys
      requires AssembledPdf(FrontsPart) in disk.files && AssembledPdf(BacksPart) in disk.files
      requires disk.files[AssembledPdf(FrontsPart)] == ImagesOwed(Owed(), mismatch.fronts)
      requires disk.files[AssembledPdf(BacksPart)] == Reversed(ImagesOwed(Owed(), mismatch.backs))
      ensures
        var pages := |mismatch.fronts| + |mismatch.backs|;
        PathSet(mismatch.fronts + mismatch.backs) == Owed().Keys
        && Done(ScanResult(outcome, pages, pages, []), TwoHalves(mismatch.fronts, mismatch.backs))
    {
      PathSetAppends(mismatch.fronts, mismatch.backs);
      TwoContents(AssembledPdf(FrontsPart), AssembledPdf(BacksPart), disk.files);
    }

    /** A run that has not started: nothing scanned, nothing owed, an empty spool. */
    ghost predicate Fresh()
      reads ledger, ledger.history, artefacts, coordinator`answers, flips, disk, signal`settled, paperless`took
    {
      && Guarded()
      && ledger.passes == [] && ledger.flight == [] && ledger.unreadableSheets == 0
      && ledger.history.throws == NoThrows && ledger.history.failed == NoFailure && ledger.history.batches == NoBatch
      && artefacts.document == []
      && flips.outcome == None && coordinator.answers == NoAnswers
      && paperless.took == map[]
      && disk.faults == 0 && SpoolPart(disk.files) == map[]
    }

    /** What acquisition hands on: exactly the pages the run owes, each once. */
    ghost predicate Acquires(acquired: Acquired)
      reads ledger.history, coordinator`answers, ledger`flight, ledger`passes, ledger`unreadableSheets
      reads artefacts`document, artefacts`stage, artefacts`pdfs, artefacts`accepted, disk, signal`settled
      reads match acquired case PassByPass(d) => {d} + SinksOf(d.history) case _ => {}
    {
      match acquired
      case OneBatch(batch) =>
        && batch.pages != [] && PathSet(batch.pages) == Owed().Keys && |batch.pages| == |Owed()|
        && artefacts.document == [] && FlightFiles(ledger.flight) == Owed().Keys
      case Halves(mismatch) =>
        && artefacts.document == []
        && mismatch.fronts != [] && mismatch.backs != []
        && PathSet(mismatch.fronts) + PathSet(mismatch.backs) == Owed().Keys == FlightFiles(ledger.flight)
        && |mismatch.fronts| + |mismatch.backs| == |Owed()|
      case PassByPass(document) =>
        Growing(document) && document.history.Adding?
    }

    /** What is to be made of what was acquired. */
    ghost function PlanOf(acquired: Acquired): Plan
      reads match acquired case PassByPass(d) => {d} case _ => {}
    {
      match acquired
      case OneBatch(batch) => OneDocument(batch.pages, Blanks(batch.pages, detectsBlanks, threshold))
      case Halves(mismatch) => TwoHalves(mismatch.fronts, mismatch.backs)
      case PassByPass(document) => PassesBound(document.history)
    }

    /**
     * A plan covers each page the run owes, once, and leaves out exactly the pages that look
     * blank, or of each pass those that its operator let go.
     */
    ghost predicate Faithful(plan: Plan)
      reads ledger.history`recorded, ledger.history`throws
    {
      Covers(plan, Owed(), detectsBlanks, threshold)
    }

    lemma PlanIsFaithful(acquired: Acquired)
      requires Acquires(acquired)
      ensures Faithful(PlanOf(acquired))
    {
      match acquired
      case OneBatch(batch) =>
        BlankPositionsAre(batch.pages, threshold);
      case Halves(mismatch) =>
        PathSetAppends(mismatch.fronts, mismatch.backs);
      case PassByPass(document) =>
        document.Totals();
        BoundCount(document.history, document.started);
        KeptGrowth(document, document.history.before);
        KeptIsBound(document.history);
    }

    /** Somebody cancelled: the operator's own abort at a prompt, or at the flip wait of a manual duplex run. */
    ghost predicate CancelledBy(multiPage: bool, manualDuplex: bool)
      reads coordinator`answers, coordinator`broken, flips`outcome
    {
      if multiPage then coordinator.GaveUp() else manualDuplex && flips.outcome == Some(Aborted(false))
    }

    /**
     * `_acquire`: the strategy the request asked for.  Only a multi-page run can throw a pass
     * away, and however an acquisition ends all it recorded in the others is still there.
     */
    method Acquire(multiPage: bool, manualDuplex: bool) returns (r: Step<Acquired>)
      requires Fresh()
      modifies ledger, ledger.history, artefacts`document, disk, signal`received, signal`deferred, coordinator, flips
      ensures Guarded() && ledger.Mirrored()
      ensures r.Value? ==> Acquires(r.value)
      ensures r.Value? ==> Arranges(PlanOf(r.value), ledger.history, coordinator.answers, multiPage, manualDuplex)
      ensures !multiPage ==> ledger.history.throws == NoThrows
      ensures !multiPage && manualDuplex ==> Counted(ledger.history.batches, ledger.unreadableSheets, r == Raised(Interrupted))
      ensures r == Raised(Cancelled) <==> CancelledBy(multiPage, manualDuplex)
    {
      if multiPage {
        assert Tidy({}, disk.files, true) && ledger.history.Latest() == 0;
        var document, _ := ScanMultiPage();
        r := if document.Value? then Value(PassByPass(document.value)) else Raised(document.ending);
      } else if manualDuplex {
        r := AcquireDuplex();
      } else {
        r := AcquireSimplex();
      }
    }

    method AcquireSimplex() returns (r: Step<Acquired>)
      requires Fresh()
      modifies ledger`passes, ledger`flight, ledger.history`recorded, ledger.history`batches, disk, signal`received, signal`deferred
      ensures Guarded() && ledger.Mirrored()
      ensures r.Value? ==> Acquires(r.value)
      ensures r.Value? ==> Arranges(PlanOf(r.value), ledger.history, coordinator.answers, false, false)
      ensures r.Raised? ==> r.ending != Cancelled
    {
      var batch :- ScanSimplex();
      assert PathSet([]) + FlightFiles(ledger.flight) == FlightFiles(ledger.flight);
      assert OnlyPassA(ledger.history.batches);
      return Value(OneBatch(batch));
    }

    method AcquireDuplex() returns (r: Step<Acquired>)
      requires Fresh()
      modifies ledger, ledger.history`recorded, ledger.history`batches, disk, signal`received, signal`deferred, flips
      ensures Guarded() && ledger.Mirrored()
      ensures Counted(ledger.history.batches, ledger.unreadableSheets, r == Raised(Interrupted))
      ensures r.Value? ==> Acquires(r.value)
      ensures r.Value? ==> Arranges(PlanOf(r.value), ledger.history, coordinator.answers, false, true)
      ensures r == Raised(Cancelled) <==> flips.outcome == Some(Aborted(false))
    {
      ghost var front, back;
      r, front, back := ScanManualDuplex();
      assert PathSet([]) + FlightFiles(ledger.flight) == FlightFiles(ledger.flight);
      if r.Value? {
        assert DuplexPlan(PlanOf(r.value), ledger.history.batches, front, back);
        if r.value.Halves? {
          PathSetAppends(r.value.mismatch.fronts, r.value.mismatch.backs);
        }
      }
    }

    /**
     * `_run`: acquire, and then deliver what was acquired, whole and in order but for the pages
     * its plan leaves out.
     */
    method Run(multiPage: bool, manualDuplex: bool) returns (r: Step<ScanResult>, ghost plan: Plan)
      requires Fresh() && Flagged()
      modifies ledger, ledger.history, artefacts, this`removed, disk, signal, coordinator, flips, paperless
      ensures Flagged() && Sent() && ledger.Mirrored() && Accounted()
      ensures !multiPage ==> ledger.history.throws == NoThrows
      ensures r.Raised? ==> Keepable() && Follows(plan)
      ensures r.Value? ==> Done(r.value, plan)
      ensures r.Value? || artefacts.stage == Delivering ==>
                Faithful(plan) && Arranges(plan, ledger.history, coordinator.answers, multiPage, manualDuplex)
      ensures r == Raised(Cancelled) <==> CancelledBy(multiPage, manualDuplex)
      ensures !multiPage && manualDuplex ==> Counted(ledger.history.batches, ledger.unreadableSheets, r == Raised(Interrupted))
      ensures r == Raised(Cancelled) ==> artefacts.stage == Acquiring
    {
      var acquired;
      acquired, plan := AcquireToPlan(multiPage, manualDuplex);
      if acquired.Raised? {
        r := Raised(acquired.ending);
        GuardedIsKeepable();
      } else {
        r := DeliverPlanned(acquired.value, plan, multiPage, manualDuplex);
      }
    }

    /** What an acquisition leaves behind is what a failing run can keep. */
    lemma GuardedIsKeepable()
      requires Guarded() && Flagged()
      ensures Keepable() && Sent()
    {
      assert paperless.took.Keys == {};
    }

    /** The part of `_run` before the delivery, and what is to be made of what it acquired. */
    method AcquireToPlan(multiPage: bool, manualDuplex: bool) returns (r: Step<Acquired>, ghost plan: Plan)
      requires Fresh()
      modifies ledger, ledger.history, artefacts`document, disk, signal`received, signal`deferred, coordinator, flips
      ensures Guarded() && ledger.Mirrored()
      ensures !multiPage ==> ledger.history.throws == NoThrows
      ensures !multiPage && manualDuplex ==> Counted(ledger.history.batches, ledger.unreadableSheets, r == Raised(Interrupted))
      ensures r.Value? ==>
                && Acquires(r.value) && plan == PlanOf(r.value) && Faithful(plan)
                && Arranges(plan, ledger.history, coordinator.answers, multiPage, manualDuplex)
      ensures r == Raised(Cancelled) <==> CancelledBy(multiPage, manualDuplex)
    {
      plan := OneDocument([], []);
      if { case !signal.received => :- signal.Land(); case true => }
      r := Acquire(multiPage, manualDuplex);
      if r.Value? {
        plan := PlanOf(r.value);
        PlanIsFaithful(r.value);
      }
    }

    /** The part of `_run` after the acquisition: whatever the delivery does, the plan stands. */
    method DeliverPlanned(acquired: Acquired, ghost plan: Plan, ghost multiPage: bool, ghost manualDuplex: bool)
      returns (r: Step<ScanResult>)
      requires Guarded() && Acquires(acquired) && Flagged() && ledger.Mirrored()
      requires plan == PlanOf(acquired) && Faithful(plan) && Arranges(plan, ledger.history, coordinator.answers, multiPage, manualDuplex)
      modifies artefacts, this`removed, disk, paperless, signal
      ensures Flagged() && Sent() && ledger.Mirrored() && Accounted()
      ensures r.Raised? ==> Keepable() && Follows(plan)
      ensures r.Value? ==> Done(r.value, plan)
      ensures Faithful(plan) && Arranges(plan, ledger.history, coordinator.answers, multiPage, manualDuplex)
      ensures ledger.history.throws == old(ledger.history.throws)
      ensures coordinator.answers == old(coordinator.answers) && coordinator.broken == old(coordinator.broken)
      ensures flips.outcome == old(flips.outcome) && ledger.unreadableSheets == old(ledger.unreadableSheets)
      ensures ledger.history.batches == old(ledger.history.batches)
      ensures r.Raised? ==> r.ending != Cancelled
    {
      r := DeliverUnasked(acquired, plan);
    }

    /** What the operator answered and how the flip wait ended. */
    ghost function Operated(): (Answers, bool, Option<FlipOutcome>)
      reads coordinator`answers, coordinator`broken, flips`outcome
    {
      (coordinator.answers, coordinator.broken, flips.outcome)
    }

    /** A delivery asks nobody anything. */
    method DeliverUnasked(acquired: Acquired, ghost plan: Plan) returns (r: Step<ScanResult>)
      requires Guarded() && Acquires(acquired) && plan == PlanOf(acquired) && Flagged() && ledger.Mirrored()
      modifies artefacts, this`removed, disk, paperless, signal
      ensures Flagged() && Sent() && ledger.Mirrored()
      ensures r.Raised? ==> Keepable() && Follows(plan)
      ensures r.Value? ==> Done(r.value, plan)
      ensures Operated() == old(Operated())
      ensures r.Raised? ==> r.ending != Cancelled
    {
      r := DeliverAcquired(acquired, plan);
    }

    /** Deliver what was acquired, as its kind asks. */
    method DeliverAcquired(acquired: Acquired, ghost plan: Plan) returns (r: Step<ScanResult>)
      requires Guarded() && Acquires(acquired) && plan == PlanOf(acquired) && Flagged() && ledger.Mirrored()
      modifies artefacts`stage, artefacts`document, artefacts`pdfs, artefacts`accepted, this`removed
      modifies disk`files, disk`faults, paperless, signal
      ensures Flagged() && Sent() && ledger.Mirrored()
      ensures r.Raised? ==> Keepable() && Follows(plan)
      ensures r.Value? ==> Done(r.value, plan)
      ensures r.Raised? ==> r.ending != Cancelled
    {
      match acquired
      case OneBatch(batch) => r := FinishDocument(batch);
      case Halves(mismatch) => r := FinishMismatch(mismatch);
      case PassByPass(document) => r := FinishMultiPage(document);
    }

    /** Each PDF on record has one caution, on its kept copy or on its pages, and no other caution is made. */
    ghost predicate EachCautionedOnce(cautions: seq<Caution>, taken: seq<Path>)
      reads artefacts`pdfs, artefacts`accepted
    {
      && |taken| <= |artefacts.pdfs|
      && |cautions| == TakenCount(artefacts.pdfs, artefacts.accepted)
      && (forall i :: 0 <= i < |artefacts.pdfs| && artefacts.pdfs[i] in artefacts.accepted ==>
            CautionOn(artefacts.pdfs, taken, artefacts.accepted, i) in cautions)
      && (forall i, j ::
            0 <= i < j < |artefacts.pdfs| && artefacts.pdfs[i] in artefacts.accepted && artefacts.pdfs[j] in artefacts.accepted ==>
            CautionOn(artefacts.pdfs, taken, artefacts.accepted, i) != CautionOn(artefacts.pdfs, taken, artefacts.accepted, j))
    }

    /** What the guard finds: the artefacts, and the passes that put pages on the spool. */
    ghost function Discovered(): Found
      reads artefacts`stage, artefacts`document, artefacts`pdfs, ledger`flight
    {
      Found(artefacts.stage, artefacts.document, NonEmpty(ledger.flight), artefacts.pdfs)
    }

    /** Tell the artefacts what the ledger knows; what is due still is then the most finished of them. */
    method TellArtefacts()
      requires Recoverable(Owed(), artefacts.stage, artefacts.document, removed, ledger.flight, artefacts.pdfs, disk.files)
      requires artefacts.pdfs != [] ==> AllThere(artefacts.pdfs, disk.files)
      requires ledger.Mirrored()
      modifies artefacts`passes, artefacts`unreadableSheets
      ensures WellFound(Finds(artefacts))
      ensures Finds(artefacts) == Discovered() && artefacts.unreadableSheets == ledger.unreadableSheets
      ensures
        var due := Due(Owed(), artefacts.stage, artefacts.document, removed);
        && (forall p | p in due :: p in disk.files && disk.files[p] == [due[p]] && p.SpoolFile? && !p.entry.partial)
        && (forall p | p in due :: MostFinished(Finds(artefacts), disk.files, due[p]) && InSpool(disk.files, due[p]))
    {
      assert ledger.InFlight() == ledger.flight;
      assert ledger.Spooled() == NonEmpty(ledger.flight);
      artefacts.passes := ledger.Spooled();
      artefacts.unreadableSheets := ledger.unreadableSheets;
      RecoverableIsMostFinished(Owed(), Finds(artefacts), removed, ledger.flight, disk.files);
    }

    /** Keep the most finished artefact, and see whether pages are left in the workspace. */
    method KeepFound(ghost due: map<Path, Image>) returns (report: PreservationReport, ghost taken: seq<Path>, keepWorkspace: bool)
      requires WellFound(Finds(artefacts))
      requires forall p | p in due :: p in disk.files && disk.files[p] == [due[p]] && p.SpoolFile? && !p.entry.partial
      requires forall p | p in due :: MostFinished(Finds(artefacts), disk.files, due[p]) && InSpool(disk.files, due[p])
      modifies disk
      ensures fresh(report)
      ensures KeptStays(old(disk.files), disk.files) && KeptOrLeft(due, disk.files, keepWorkspace)
      ensures AllTruthful(report.groups, Finds(artefacts), old(disk.files), disk.files)
      ensures report.problems == [] ==> GroupKinds(report.groups) == Kinds(Finds(artefacts), old(disk.files), |SpoolPart(old(disk.files))| > 0)
      ensures KeepsPdfs(Finds(artefacts), old(disk.files)) ==>
                && AllKept(old(disk.files), disk.files, Existing(artefacts.pdfs, old(disk.files)), taken)
                && report.cautions == DeliveryCautions(Existing(artefacts.pdfs, old(disk.files)), taken, artefacts.accepted)
      ensures !KeepsPdfs(Finds(artefacts), old(disk.files)) ==>
                report.cautions == PairingOf(Finds(artefacts), artefacts.unreadableSheets, report.problems)
    {
      ghost var before := disk.files;
      report, taken := PreserveMostFinished(disk, artefacts);
      keepWorkspace := report.problems != [] && HasPagesLeft(disk.files);
      PreservedMeans(due, Finds(artefacts), before, disk.files, report.problems);
    }

    /** The guard's own work once the run is settled: keep the most finished artefact, once. */
    method Preserve() returns (report: PreservationReport, ghost taken: seq<Path>, keepWorkspace: bool)
      requires Recoverable(Owed(), artefacts.stage, artefacts.document, removed, ledger.flight, artefacts.pdfs, disk.files)
      requires artefacts.pdfs != [] ==> AllThere(artefacts.pdfs, disk.files)
      requires artefacts.stage != Delivering ==> artefacts.accepted == map[]
      requires ledger.Mirrored() && Flagged() && Sent() && signal.settled
      modifies artefacts`passes, artefacts`unreadableSheets, disk, this`preservations
      ensures fresh(report)
      ensures preservations == old(preservations) + 1
      ensures KeptStays(old(disk.files), disk.files)
      ensures KeptOrLeft(Due(Owed(), artefacts.stage, artefacts.document, removed), disk.files, keepWorkspace)
      ensures artefacts.stage == Delivering ==> EachCautionedOnce(report.cautions, taken)
      ensures TakenCautioned(paperless.took, report.cautions, disk.files)
      ensures AllTruthful(report.groups, Discovered(), old(disk.files), disk.files)
      ensures report.problems == [] ==> GroupKinds(report.groups) == Kinds(Discovered(), old(disk.files), |SpoolPart(old(disk.files))| > 0)
      ensures artefacts.stage != Delivering ==> report.cautions == PairingOf(Discovered(), ledger.unreadableSheets, report.problems)
      ensures artefacts.stage == Delivering ==> NamesNoPage(report.cautions)
    {
      TellArtefacts();
      ghost var before := disk.files;
      preservations := preservations + 1;
      report, taken, keepWorkspace := KeepFound(Due(Owed(), artefacts.stage, artefacts.document, removed));
      if artefacts.stage == Delivering {
        TheirPdfs(artefacts.pdfs, before);
        EveryTakenIsCautioned(report.cautions, taken, before);
      } else {
        assert paperless.took.Keys == {};
      }
    }

    lemma EveryTakenIsCautioned(cautions: seq<Caution>, taken: seq<Path>, before: FileMap)
      requires Flagged() && Held(paperless.took.Keys, before) == paperless.took && Distinct(artefacts.pdfs)
      requires forall p | p in artefacts.pdfs :: p in before && p.AssembledPdf?
      requires AllKept(before, disk.files, artefacts.pdfs, taken)
      requires cautions == DeliveryCautions(artefacts.pdfs, taken, artefacts.accepted)
      ensures EachCautionedOnce(cautions, taken) && NamesNoPage(cautions)
      ensures TakenCautioned(paperless.took, cautions, disk.files)
    {
      OneCautionEach(artefacts.pdfs, taken, artefacts.accepted);
      assert NamesNoPage(cautions) by {
        DeliveryNamesNoPage(artefacts.pdfs, taken, artefacts.accepted);
      }
      forall p | p in paperless.took ensures exists c | c in cautions :: IsCautionOn(c, p, paperless.took[p], disk.files) {
        var i :| 0 <= i < |artefacts.pdfs| && artefacts.pdfs[i] == p;
        var c := CautionOn(artefacts.pdfs, taken, artefacts.accepted, i);
        assert c in cautions;
        assert p in Held(paperless.took.Keys, before);
        if i < |taken| {
          assert KeptAs(before, disk.files, taken[i], artefacts.pdfs[i].part, before[artefacts.pdfs[i]]);
        }
        assert IsCautionOn(c, p, paperless.took[p], disk.files);
      }
    }

    /** What a run that ended owes is each page of the document and of the passes its sinks hold. */
    ghost predicate OwesWhatItHas()
      reads ledger.history`recorded, ledger.history`throws, ledger`flight, ledger`passes, ledger.Sinks()
      reads artefacts`stage, artefacts`document
    {
      && ledger.Mirrored()
      && match artefacts.stage
         case Acquiring => Owed().Keys == PathSet(artefacts.document) + FlightFiles(ledger.flight)
         case Delivered => false
         case _ => Owed().Keys == Recovery.Acquired(artefacts.document, ledger.flight)
    }

    /**
     * Between passes of a run nothing was refused to, the spool read in name order is the
     * document, page for page, exactly when the names of every two of its files keep the order,
     * as they do up to 99999 passes: what a sweep of a killed run rebuilds it from.
     */
    lemma SpoolIsTheDocument(document: MultiPageDocument, listing: seq<Entry>)
      requires Between(document) && disk.faults == 0
      requires IsListing(disk.files, listing) && SortedByName(listing)
      ensures forall r | r in document.records :: r.path.SpoolFile?
      ensures InDocumentOrder(Entries(document.records))
      ensures listing == Entries(document.records) <==> AllKeepOrder(Entries(document.records))
      ensures document.started <= 99999 ==> AllKeepOrder(Entries(document.records))
    {
      DocumentIsInOrder(document.history, document.started);
      var entries := Entries(document.records);
      ListsTheseFiles(document.records, disk.files, listing);
      SameFiles(listing, entries);
      SortedSpoolIsDocument(listing, entries);
      if document.started <= 99999 {
        FittingSorts(entries);
      }
    }

    /** The `except` arm of `execute`: settle the run, and unless somebody cancelled preserve what it has. */
    method Guard(ending: Ending)
      returns (keepWorkspace: bool, report: PreservationReport?, ghost taken: seq<Path>)
      requires Keepable() && Flagged() && Sent() && ledger.Mirrored()
      modifies artefacts`passes, artefacts`unreadableSheets, disk, this`preservations, signal
      ensures signal.settled
      ensures KeptStays(old(disk.files), disk.files)
      ensures ending == Cancelled ==>
                report == null && !keepWorkspace && disk.files == old(disk.files) && preservations == old(preservations)
      ensures ending != Cancelled ==>
                && report != null && fresh(report) && preservations == old(preservations) + 1
                && KeptOrLeft(Due(Owed(), artefacts.stage, artefacts.document, removed), disk.files, keepWorkspace)
                && (artefacts.stage == Delivering ==> EachCautionedOnce(report.cautions, taken))
                && TakenCautioned(paperless.took, report.cautions, disk.files)
                && AllTruthful(report.groups, Discovered(), old(disk.files), disk.files)
                && (report.problems == [] ==> GroupKinds(report.groups) == Kinds(Discovered(), old(disk.files), |SpoolPart(old(disk.files))| > 0))
                && (artefacts.stage != Delivering ==>
                      report.cautions == PairingOf(Discovered(), ledger.unreadableSheets, report.problems))
                && (artefacts.stage == Delivering ==> NamesNoPage(report.cautions))
    {
      keepWorkspace, report, taken := false, null, [];
      signal.SettleAbsorbing();
      if ending != Cancelled {
        var late := signal.Boundary();
        assert late == Go;
        report, taken, keepWorkspace := Preserve();
      }
    }

    /** What is due under a plan that the run follows is what the plan keeps. */
    lemma DueIsPlanned(plan: Plan)
      requires Faithful(plan) && Follows(plan) && artefacts.stage == Delivering
      ensures Due(Owed(), artefacts.stage, artefacts.document, removed) == StillDue(Some(plan), Owed())
    {
    }

    /** The `try` of `execute`, and the plan of the delivery if one began. */
    method RunToPlan(multiPage: bool, manualDuplex: bool) returns (r: Step<ScanResult>, ghost plan: Option<Plan>)
      requires Fresh() && Flagged()
      modifies ledger, ledger.history, artefacts, this`removed, disk, signal, coordinator, flips, paperless
      ensures Flagged() && Sent() && Accounted() && ledger.Mirrored()
      ensures !multiPage ==> ledger.history.throws == NoThrows
      ensures plan.Some? <==> artefacts.stage == Delivering || artefacts.stage == Delivered
      ensures plan.Some? ==> Faithful(plan.value) && Arranges(plan.value, ledger.history, coordinator.answers, multiPage, manualDuplex)
      ensures r.Value? ==> signal.settled && artefacts.stage == Delivered && Done(r.value, plan.value)
      ensures r.Raised? ==>
                && Keepable() && artefacts.stage != Delivered
                && Due(Owed(), artefacts.stage, artefacts.document, removed) == StillDue(plan, Owed())
      ensures Outside(disk.files) == old(Outside(disk.files))
      ensures r == Raised(Cancelled) <==> CancelledBy(multiPage, manualDuplex)
      ensures !multiPage && manualDuplex ==> Counted(ledger.history.batches, ledger.unreadableSheets, r == Raised(Interrupted))
      ensures r == Raised(Cancelled) ==> artefacts.stage == Acquiring
    {
      ghost var made;
      r, made := Run(multiPage, manualDuplex);
      plan := if artefacts.stage == Delivering || artefacts.stage == Delivered then Some(made) else None;
      if artefacts.stage == Delivering {
        DueIsPlanned(made);
      }
    }

    /** A run that ended without delivering owes what it has. */
    lemma KeepableOwes()
      requires Keepable() && ledger.Mirrored()
      ensures OwesWhatItHas()
    {
    }

    /** What the guard made of a failed run, as the run had it. */
    ghost predicate Rescued(report: PreservationReport, taken: seq<Path>, plan: Option<Plan>, ended: FileMap, keepWorkspace: bool)
      reads report, ledger.history`recorded, ledger.history`throws, ledger`flight, ledger`unreadableSheets
      reads artefacts`stage, artefacts`document, artefacts`pdfs, artefacts`accepted, disk`files, paperless`took
    {
      && KeptOrLeft(StillDue(plan, Owed()), disk.files, keepWorkspace)
      && (artefacts.stage == Delivering ==> EachCautionedOnce(report.cautions, taken) && NamesNoPage(report.cautions))
      && TakenCautioned(paperless.took, report.cautions, disk.files)
      && AllTruthful(report.groups, Discovered(), ended, disk.files)
      && (report.problems == [] ==> GroupKinds(report.groups) == Kinds(Discovered(), ended, |SpoolPart(ended)| > 0))
      && (artefacts.stage != Delivering ==> report.cautions == PairingOf(Discovered(), ledger.unreadableSheets, report.problems))
    }

    /**
     * `execute`, the run and its one guard.  With a signal allowed at any step: a run that was
     * delivered returns its own result, and any other ends with what was raised; preservation
     * runs exactly once unless somebody cancelled, with the run settled, so that no signal can
     * cut it short; and every page recorded and not thrown away is then under `failed/`, or
     * still in the spool of a workspace that stays, apart from those that the plan of a delivery
     * leaves out.
     */
    method Execute(multiPage: bool, manualDuplex: bool)
      returns (r: Step<ScanResult>, keepWorkspace: bool, report: PreservationReport?,
               ghost taken: seq<Path>, ghost plan: Option<Plan>, ghost ended: FileMap)
      requires Fresh() && Flagged()
      modifies this, ledger, ledger.history, artefacts, disk, signal, coordinator, flips, paperless
      ensures signal.settled
      ensures r.Value? <==> artefacts.stage == Delivered
      ensures plan.Some? <==> artefacts.stage == Delivering || artefacts.stage == Delivered
      ensures plan.Some? ==> Faithful(plan.value) && Arranges(plan.value, ledger.history, coordinator.answers, multiPage, manualDuplex)
      ensures r.Value? ==> Done(r.value, plan.value)
      ensures paperless.OnceEach() && TrulyAccepted() && Accounted() && (!multiPage ==> ledger.history.throws == NoThrows)
      ensures r.Raised? ==> OwesWhatItHas()
      ensures r == Raised(Cancelled) <==> CancelledBy(multiPage, manualDuplex)
      ensures r == Raised(Cancelled) ==> artefacts.stage == Acquiring
      ensures !multiPage && manualDuplex ==> Counted(ledger.history.batches, ledger.unreadableSheets, r == Raised(Interrupted))
      ensures preservations == old(preservations) + if r.Raised? && r.ending != Cancelled then 1 else 0
      ensures KeptStays(old(disk.files), disk.files) && Outside(ended) == old(Outside(disk.files))
      ensures r.Raised? ==> Safe(Owed(), Owed().Keys, ended)
      ensures r.Value? || r.ending == Cancelled ==> report == null && !keepWorkspace && disk.files == ended
      ensures r.Raised? && r.ending != Cancelled ==>
                report != null && fresh(report) && Rescued(report, taken, plan, ended, keepWorkspace)
      ensures !multiPage && manualDuplex && report != null && r != Raised(Interrupted) && RejectsIn(ledger.history.batches) > 0 ==>
                NamesNoPage(report.cautions)
    {
      r, plan := RunToPlan(multiPage, manualDuplex);
      keepWorkspace, report, taken, ended := false, null, [], disk.files;
      OutsideKept(old(disk.files), ended);
      assert preservations == old(preservations);
      if r.Value? {
        return;
      }
      keepWorkspace, report, taken := GuardRun(r.ending, plan, multiPage, manualDuplex);
      KeptStaysOn(old(disk.files), ended, disk.files);
      if report != null {
        NamesPagesOnlyCounted(report, taken, plan, ended, keepWorkspace, r == Raised(Interrupted));
      }
    }

    /** `execute` inside its workspace, which is then removed unless pages could not be moved out of it. */
    method ExecuteInWorkspace(multiPage: bool, manualDuplex: bool)
      returns (r: Step<ScanResult>, report: PreservationReport?, ghost plan: Option<Plan>)
      requires Fresh() && Flagged()
      modifies this, ledger, ledger.history, artefacts, disk, signal, coordinator, flips, paperless
      ensures signal.settled
      ensures r.Value? ==> plan.Some?
      ensures plan.Some? ==> Faithful(plan.value) && Arranges(plan.value, ledger.history, coordinator.answers, multiPage, manualDuplex)
      ensures r.Value? ==>
                && paperless.took == Uploads(plan.value, Owed())
                && Reports(r.value, plan.value)
                && paperless.AllFiled(r.value.outcome == Success)
      ensures paperless.OnceEach() && Accounted() && (!multiPage ==> ledger.history.throws == NoThrows)
      ensures r == Raised(Cancelled) <==> CancelledBy(multiPage, manualDuplex)
      ensures KeptStays(old(disk.files), disk.files)
      ensures r.Raised? && r.ending != Cancelled ==>
                && report != null
                && KeptOrLeft(StillDue(plan, Owed()), disk.files, true)
                && TakenCautioned(paperless.took, report.cautions, disk.files)
      ensures !multiPage && manualDuplex && report != null && r != Raised(Interrupted) && RejectsIn(ledger.history.batches) > 0 ==>
                NamesNoPage(report.cautions)
    {
      var keepWorkspace;
      ghost var taken, ended;
      r, keepWorkspace, report, taken, plan, ended := Execute(multiPage, manualDuplex);
      ghost var left := disk.files;
      CloseWorkspace(disk, keepWorkspace, report, StillDue(plan, Owed()), paperless.took);
      KeptStaysOn(old(disk.files), left, disk.files);
    }

    /** A guard that knows of an unread sheet names no page. */
    lemma NamesPagesOnlyCounted(report: PreservationReport, taken: seq<Path>, plan: Option<Plan>, ended: FileMap, keepWorkspace: bool,
                                interrupted: bool)
      requires Rescued(report, taken, plan, ended, keepWorkspace)
      ensures Counted(ledger.history.batches, ledger.unreadableSheets, interrupted) && !interrupted && RejectsIn(ledger.history.batches) > 0 ==>
                NamesNoPage(report.cautions)
    {
    }

    /** The guard on a run that failed: what the run had and what was asked of it stay as they were. */
    method GuardRun(ending: Ending, ghost plan: Option<Plan>, ghost multiPage: bool, ghost manualDuplex: bool)
      returns (keepWorkspace: bool, report: PreservationReport?, ghost taken: seq<Path>)
      requires Keepable() && Flagged() && Sent() && ledger.Mirrored() && Accounted() && artefacts.stage != Delivered
      requires Due(Owed(), artefacts.stage, artefacts.document, removed) == StillDue(plan, Owed())
      requires plan.Some? ==> Faithful(plan.value) && Arranges(plan.value, ledger.history, coordinator.answers, multiPage, manualDuplex)
      modifies artefacts`passes, artefacts`unreadableSheets, disk, this`preservations, signal
      ensures signal.settled && Accounted() && OwesWhatItHas()
      ensures plan.Some? ==> Faithful(plan.value) && Arranges(plan.value, ledger.history, coordinator.answers, multiPage, manualDuplex)
      ensures CancelledBy(multiPage, manualDuplex) == old(CancelledBy(multiPage, manualDuplex))
      ensures paperless.OnceEach() && TrulyAccepted()
      ensures KeptStays(old(disk.files), disk.files)
      ensures preservations == old(preservations) + if ending != Cancelled then 1 else 0
      ensures ending == Cancelled ==> report == null && !keepWorkspace && disk.files == old(disk.files)
      ensures ending != Cancelled ==> report != null && fresh(report) && Rescued(report, taken, plan, old(disk.files), keepWorkspace)
    {
      KeepableOwes();
      keepWorkspace, report, taken := Guard(ending);
    }
  }

  /** What a run that was not delivered still owes: all of it, or what the delivery under way covers. */
  ghost function StillDue(plan: Option<Plan>, owed: map<Path, Image>): map<Path, Image> {
    if plan.None? || plan.value.TwoHalves? then owed else Only(owed, PathSet(plan.value.Keeps()))
  }

  lemma KeptStaysOn(before: FileMap, mid: FileMap, after: FileMap)
    requires KeptStays(before, mid) && KeptStays(mid, after)
    ensures KeptStays(before, after)
  {
  }

  /**
   * A whole run in its workspace, which is removed when the run ends unless pages could not be
   * moved out of it.  Whatever was recorded and not thrown away: a run that returns has
   * delivered it, in order, but for the pages its plan leaves out; any other that nobody
   * cancelled leaves it on disk, under `failed/` or in the workspace; and nothing that was under
   * `failed/` before is lost.  A pass is only thrown away because the operator asked for it, or
   * because it failed in a way the operator could put right while the document kept a page.
   */
  method RunPipeline(disk: Disk, signal: Interruption, coordinator: PassCoordinator, flips: FlipCoordinator,
                     paperless: PaperlessPort, ghost history: PageHistory,
                     detectsBlanks: bool, threshold: real, multiPage: bool, manualDuplex: bool)
    returns (r: Step<ScanResult>, report: PreservationReport?, ghost plan: Option<Plan>)
    requires SpoolPart(disk.files) == map[] && disk.faults == 0 && !signal.settled
    requires paperless.took == map[] && paperless.made == NoDocument && paperless.confirmed == {} && paperless.copied == {}
    requires history.recorded == map[] && history.throws == NoThrows && history.failed == NoFailure && history.batches == NoBatch
    requires flips.outcome == None && coordinator.answers == NoAnswers
    modifies disk, signal, coordinator, flips, paperless, history
    ensures signal.settled
    ensures r.Value? ==> plan.Some?
    ensures plan.Some? ==>
              && Covers(plan.value, history.Owed(), detectsBlanks, threshold)
              && Arranges(plan.value, history, coordinator.answers, multiPage, manualDuplex)
    ensures r.Value? ==>
              && paperless.took == Uploads(plan.value, history.Owed())
              && Reports(r.value, plan.value) && r.value.scanned == |history.Owed()| > 0
              && paperless.AllFiled(r.value.outcome == Success)
    ensures paperless.OnceEach()
    ensures r.Raised? && r.ending != Cancelled ==>
              && report != null
              && KeptOrLeft(StillDue(plan, history.Owed()), disk.files, true)
              && TakenCautioned(paperless.took, report.cautions, disk.files)
    ensures KeptStays(old(disk.files), disk.files)
    ensures Excuses(history.throws) <= Retryable(history.failed)
    ensures Rescans(history.throws) <= RescansAsked(coordinator.answers)
    ensures !multiPage ==> history.throws == NoThrows
    ensures r == Raised(Cancelled) <==>
              if multiPage then coordinator.GaveUp() else manualDuplex && flips.outcome == Some(Aborted(false))
    ensures history.FailuresAreReal()
    ensures !multiPage && manualDuplex && report != null && r != Raised(Interrupted) && RejectsIn(history.batches) > 0 ==>
              NamesNoPage(report.cautions)
  {
    var run := new PipelineRun(disk, signal, coordinator, flips, paperless, history, detectsBlanks, threshold);
    assert run.Fresh() && run.Flagged() by {
      assert history.Owed() == map[] && FlightFiles([]) == {} && PathSet([]) == {} && map[] == SpoolPart(disk.files);
    }
    r, report, plan := run.ExecuteInWorkspace(multiPage, manualDuplex);
  }

  /** The end of the workspace's `with` block: it is removed unless pages could not be moved out of it. */
  method CloseWorkspace(disk: Disk, keepWorkspace: bool, report: PreservationReport?,
                        ghost due: map<Path, Image>, ghost took: map<Path, seq<Image>>)
    requires report != null ==> KeptOrLeft(due, disk.files, keepWorkspace) && TakenCautioned(took, report.cautions, disk.files)
    modifies disk`files
    ensures KeptStays(old(disk.files), disk.files)
    ensures report != null ==> KeptOrLeft(due, disk.files, true) && TakenCautioned(took, report.cautions, disk.files)
  {
    if keepWorkspace {
      return;
    }
    ghost var before := disk.files;
    disk.RemoveWorkspace();
    OutsideOutlasts(before);
    if report != null {
      FailedOutlastsWorkspace(due, before);
      CautionsOutlast(took, report.cautions, before);
    }
  }

  lemma OutsideOutlasts(files: FileMap)
    ensures KeptStays(files, Outside(files))
  {
  }

  lemma CautionsOutlast(took: map<Path, seq<Image>>, cautions: seq<Caution>, files: FileMap)
    requires TakenCautioned(took, cautions, files)
    ensures TakenCautioned(took, cautions, Outside(files))
  {
    forall p | p in took ensures exists c | c in cautions :: IsCautionOn(c, p, took[p], Outside(files)) {
      var c :| c in cautions && IsCautionOn(c, p, took[p], files);
      assert IsCautionOn(c, p, took[p], Outside(files));
    }
  }

  lemma FailedOutlastsWorkspace(owed: map<Path, Image>, files: FileMap)
    requires KeptOrLeft(owed, files, false)
    ensures KeptOrLeft(owed, Outside(files), true)
  {
    forall p | p in owed ensures InFailed(Outside(files), owed[p]) {
      var kept :| kept in files && IsKept(kept) && owed[p] in files[kept];
      assert kept in Outside(files);
    }
  }
}
