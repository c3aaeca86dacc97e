/** Which passes the guard would keep, and the pages a run owes its operator. */
module Ledger {
  import opened Outcomes
  import opened Signals
  import opened FileSystem
  import opened SpoolNames
  import opened Pages
  import opened Spool
  import opened MultiPage
  import opened Preservation

  /** A pass the guard knows of: what its PDF would be called, and the sink collecting its pages. */
  datatype Registered = Registered(part: Part, sink: SpooledPageSink)

  function Without(passes: seq<Registered>, sink: SpooledPageSink): (r: seq<Registered>)
  {
    if passes == [] then []
    else
      var last := passes[|passes| - 1];
      Without(passes[..|passes| - 1], sink) + if last.sink == sink then [] else [last]
  }

  /** What the sinks of those passes hold, pass by pass. */
  ghost function FlightWithout(passes: seq<Registered>, flight: seq<Pass>, sink: SpooledPageSink): (r: seq<Pass>)
    requires |flight| == |passes|
    ensures |r| == |Without(passes, sink)|
  {
    if passes == [] then []
    else
      var last := |passes| - 1;
      FlightWithout(passes[..last], flight[..last], sink) + if passes[last].sink == sink then [] else [flight[last]]
  }

  /** The files of the passes in flight. */
  ghost function FlightFiles(flight: seq<Pass>): set<Path> {
    if flight == [] then {}
    else FlightFiles(flight[..|flight| - 1]) + PathSet(flight[|flight| - 1].records)
  }

  lemma {:induction false} FlightHolds(flight: seq<Pass>, p: Path)
    ensures p in FlightFiles(flight) <==> exists i :: 0 <= i < |flight| && p in PathSet(flight[i].records)
  {
    if flight != [] {
      var last := |flight| - 1;
      FlightHolds(flight[..last], p);
      if i :| 0 <= i < last && p in PathSet(flight[..last][i].records) {
        assert p in PathSet(flight[i].records);
      }
    }
  }

  lemma FlightAppends(flight: seq<Pass>, pass: Pass)
    ensures FlightFiles(flight + [pass]) == FlightFiles(flight) + PathSet(pass.records)
  {
    assert (flight + [pass])[..|flight|] == flight;
  }

  /** No other pass in flight has a file of this one. */
  ghost predicate Apart(passes: seq<Registered>, flight: seq<Pass>, sink: SpooledPageSink, files: set<Path>)
    requires |flight| == |passes|
  {
    forall i :: 0 <= i < |passes| ==>
      if passes[i].sink == sink then PathSet(flight[i].records) == files else PathSet(flight[i].records) !! files
  }

  lemma {:induction false} FilesWithout(passes: seq<Registered>, flight: seq<Pass>, sink: SpooledPageSink, files: set<Path>)
    requires |flight| == |passes| && Apart(passes, flight, sink, files)
    ensures FlightFiles(FlightWithout(passes, flight, sink)) == FlightFiles(flight) - files
  {
    if passes != [] {
      var last := |passes| - 1;
      assert Apart(passes[..last], flight[..last], sink, files);
      FilesWithout(passes[..last], flight[..last], sink, files);
      var rest := FlightWithout(passes[..last], flight[..last], sink);
      if passes[last].sink != sink {
        FlightAppends(rest, flight[last]);
      } else {
        assert FlightWithout(passes, flight, sink) == rest;
      }
    }
  }

  /** The file of each owed page, as it must be on disk. */
  ghost function Files(owed: map<Path, Image>): FileMap {
    map p | p in owed :: [owed[p]]
  }

  /** What the files of these paths hold. */
  ghost function Held(paths: set<Path>, files: FileMap): FileMap {
    map p | p in paths && p in files :: files[p]
  }

  /** The whole page files among the paths. */
  ghost function WholePages(paths: set<Path>): set<Path> {
    set p | p in paths && p.SpoolFile? && !p.entry.partial
  }

  /**
   * The run owes exactly the pages it refers to, and has the whole file of each.  A page is owed
   * from the moment it is recorded until somebody decides to throw it away.
   */
  ghost predicate Safe(owed: map<Path, Image>, referenced: set<Path>, files: FileMap) {
    && owed.Keys == referenced
    && WholePages(referenced) == referenced
    && Held(referenced, files) == Files(owed)
  }

  lemma SafeMeans(owed: map<Path, Image>, referenced: set<Path>, files: FileMap)
    ensures Safe(owed, referenced, files) <==> (
      && owed.Keys == referenced
      && forall p {:trigger p in owed} | p in owed :: p in files && files[p] == [owed[p]] && p.SpoolFile? && !p.entry.partial)
  {
    if Safe(owed, referenced, files) {
      forall p | p in owed ensures p in files && files[p] == [owed[p]] && p.SpoolFile? && !p.entry.partial {
        assert p in WholePages(referenced);
        assert p in Files(owed) && p in Held(referenced, files);
      }
    }
  }

  /** When nothing was refused, the spool holds the pages referred to and nothing else. */
  ghost predicate Tidy(referenced: set<Path>, files: FileMap, calm: bool) {
    calm ==> SpoolPart(files).Keys == referenced
  }

  lemma TidyWithout(referenced: set<Path>, gone: set<Path>, before: FileMap, after: FileMap)
    requires Tidy(referenced + gone, before, true) && referenced !! gone && after == before - gone
    ensures Tidy(referenced, after, true)
  {
  }

  /** Only the files of these pages went away. */
  ghost predicate OnlyGone(before: FileMap, after: FileMap, gone: set<Path>) {
    && after.Keys <= before.Keys
    && before - gone == after - gone
  }

  lemma SafeWithout(owed: map<Path, Image>, referenced: set<Path>, before: FileMap, after: FileMap, gone: set<Path>)
    requires Safe(owed, referenced, before) && OnlyGone(before, after, gone) && gone !! referenced
    ensures Safe(owed, referenced, after)
  {
    assert Held(referenced, after) == Held(referenced, before) by {
      forall p | p in referenced ensures p in before <==> p in after {
        assert p in before <==> p in before - gone;
        assert p in after <==> p in after - gone;
      }
      forall p | p in referenced && p in before ensures after[p] == before[p] {
        assert (before - gone)[p] == before[p] && (after - gone)[p] == after[p];
      }
    }
  }

  lemma GoneInside(owed: map<Path, Image>, referenced: set<Path>, before: FileMap, after: FileMap, gone: set<Path>)
    requires Safe(owed, referenced, before) && OnlyGone(before, after, gone) && gone !! referenced && WholePages(gone) == gone
    ensures Safe(owed, referenced, after) && Outside(after) == Outside(before)
  {
    SafeWithout(owed, referenced, before, after, gone);
    forall p | p in gone ensures InWorkspace(p) {
      assert p in WholePages(gone);
    }
    OutsideFrame(before, after, gone);
  }

  /** No page of this pass is among the files. */
  ghost predicate NoneOf(paths: set<Path>, pass: Label) {
    forall p | p in paths :: p.SpoolFile? ==> p.entry.pass != pass
  }

  /** A pass's pages are those of the files that bear its label. */
  lemma PagesOfPass(sink: SpooledPageSink, referenced: set<Path>)
    requires sink.Valid() && NoneOf(referenced - PathSet(sink.records), sink.pass)
    ensures WholePages(PathSet(sink.records)) == PathSet(sink.records)
    ensures FilesOf(referenced, sink.pass) == PathSet(sink.records) * referenced
  {
    forall p | p in PathSet(sink.records) ensures OfPass(p, {sink.pass}) && !p.entry.partial {
      var i :| 0 <= i < |sink.records| && sink.records[i].path == p;
    }
  }

  lemma SafeForgets(owed: map<Path, Image>, document: set<Path>, flight: set<Path>, files: FileMap, gone: set<Path>)
    requires Safe(owed, document + flight, files) && gone !! document
    ensures Safe(owed - gone, document + (flight - gone), files)
  {
    SafeMeans(owed, document + flight, files);
    SafeMeans(owed - gone, document + (flight - gone), files);
  }

  /**
   * `_unlink_pages`: delete the page files of a pass that was thrown away.  A file that cannot
   * be removed does not stop the rest.
   */
  method UnlinkPages(records: seq<PageRecord>, disk: Disk, signal: Interruption,
                     ghost owed: map<Path, Image>, ghost referenced: set<Path>)
    returns (r: Step<()>)
    requires Safe(owed, referenced, disk.files) && PathSet(records) !! referenced
    requires WholePages(PathSet(records)) == PathSet(records)
    modifies disk`files, disk`faults, signal`received, signal`deferred
    ensures Safe(owed, referenced, disk.files)
    ensures Outside(disk.files) == Outside(old(disk.files))
    ensures OnlyGone(old(disk.files), disk.files, PathSet(records))
    ensures disk.faults >= old(disk.faults)
    ensures r.Value? && disk.faults == old(disk.faults) ==> disk.files == old(disk.files) - PathSet(records)
    ensures r.Value? && !signal.settled ==> signal.received == old(signal.received)
    ensures r.Raised? ==> r.ending == Interrupted && signal.received && !old(signal.received)
    ensures old(signal.received) ==> signal.received
  {
    var i := 0;
    while i < |records|
      invariant i <= |records|
      invariant OnlyGone(old(disk.files), disk.files, PathSet(records))
      invariant disk.faults >= old(disk.faults)
      invariant disk.faults == old(disk.faults) ==> disk.files == old(disk.files) - PathSet(records[..i])
      invariant !signal.settled ==> signal.received == old(signal.received)
      invariant old(signal.received) ==> signal.received
    {
      GoneInside(owed, referenced, old(disk.files), disk.files, PathSet(records));
      :- signal.Boundary();
      var ok := disk.Unlink(records[i].path);
      assert records[i].path in PathSet(records);
      assert records[..i + 1] == records[..i] + [records[i]];
      PathSetAppends(records[..i], [records[i]]);
      i := i + 1;
    }
    assert records[..i] == records;
    GoneInside(owed, referenced, old(disk.files), disk.files, PathSet(records));
    return Value(());
  }

  /** A fault the operator can put right before trying again: at the scanner or its feeder. */
  predicate ReturnsToPrompt(ending: Ending) {
    ending in {Failed(ScannerFault), Failed(FeederFault), Failed(NoPages)}
  }

  /** A pass that failed, the pages its document kept by then, and whether a signal had been heard. */
  datatype PassFailure = PassFailure(pass: Label, fault: Fault, kept: int, signalled: bool)

  /** Why a whole pass was thrown away: its operator chose Re-scan, or it failed. */
  datatype Throw = Rescanned(given: Label) | Unusable(failure: PassFailure) {

    function Pass(): Label {
      if Rescanned? then given else failure.pass
    }
  }

  /** The passes thrown away, one after another. */
  datatype Throws = NoThrows | Then(before: Throws, last: Throw)

  ghost function ThrownPasses(throws: Throws): set<Label> {
    match throws
    case NoThrows => {}
    case Then(before, last) => ThrownPasses(before) + {last.Pass()}
  }

  /** How many of the passes were thrown away for a Re-scan. */
  ghost function Rescans(throws: Throws): nat {
    match throws
    case NoThrows => 0
    case Then(before, last) => Rescans(before) + if last.Rescanned? then 1 else 0
  }

  /** The failures that passes were thrown away for. */
  ghost function Excuses(throws: Throws): set<PassFailure> {
    match throws
    case NoThrows => {}
    case Then(before, last) => Excuses(before) + if last.Unusable? then {last.failure} else {}
  }

  /** The failures of passes, one after another. */
  datatype Failures = NoFailure | Fell(before: Failures, last: PassFailure)

  /** The passes that failed. */
  ghost function FailedPasses(failed: Failures): set<Label> {
    match failed
    case NoFailure => {}
    case Fell(before, last) => FailedPasses(before) + {last.pass}
  }

  /** The failures that send the operator back to a prompt: retryable ones, while a page is kept. */
  ghost function Retryable(failed: Failures): set<PassFailure> {
    match failed
    case NoFailure => {}
    case Fell(before, last) =>
      Retryable(before) + if last.kept > 0 && ReturnsToPrompt(Failed(last.fault)) then {last} else {}
  }

  ghost predicate OfPass(p: Path, passes: set<Label>) {
    p.SpoolFile? && p.entry.pass in passes
  }

  /** Every page recorded, apart from those of the passes thrown away. */
  ghost function PagesOwed(recorded: map<Path, Image>, thrown: set<Label>): map<Path, Image> {
    map p | p in recorded && !OfPass(p, thrown) :: recorded[p]
  }

  lemma RecordingOwes(recorded: map<Path, Image>, thrown: set<Label>, p: Path, image: Image)
    requires !OfPass(p, thrown)
    ensures PagesOwed(recorded[p := image], thrown) == PagesOwed(recorded, thrown)[p := image]
    ensures p !in PagesOwed(recorded, thrown) ==> p !in recorded
  {
  }

  /** The pages of one pass among these. */
  ghost function FilesOf(paths: set<Path>, pass: Label): set<Path> {
    set p | p in paths && OfPass(p, {pass})
  }

  /** Throwing a pass away stops owing its pages, and no other page. */
  lemma ThrowingForgets(recorded: map<Path, Image>, thrown: set<Label>, pass: Label, gone: set<Path>)
    requires FilesOf(PagesOwed(recorded, thrown).Keys, pass) == gone * PagesOwed(recorded, thrown).Keys
    ensures PagesOwed(recorded, thrown + {pass}) == PagesOwed(recorded, thrown) - gone
  {
    var after := PagesOwed(recorded, thrown + {pass});
    forall p ensures p in after <==> p in PagesOwed(recorded, thrown) - gone {
      if p in recorded && !OfPass(p, thrown) {
        assert p in PagesOwed(recorded, thrown);
        assert p in gone <==> p in FilesOf(PagesOwed(recorded, thrown).Keys, pass);
      }
    }
  }

  /** The batch that the scanner returned for a pass. */
  datatype Returned = Returned(pass: Label, batch: ScanBatch)

  /** What the scanner returned, pass after pass. */
  datatype Batches = NoBatch | Batched(before: Batches, last: Returned)

  ghost function Returns(batches: Batches): set<Returned> {
    match batches
    case NoBatch => {}
    case Batched(before, last) => Returns(before) + {last}
  }

  /** How many sheets the passes that the scanner returned could not read. */
  ghost function RejectsIn(batches: Batches): nat {
    match batches
    case NoBatch => 0
    case Batched(before, last) => RejectsIn(before) + last.batch.rejected
  }

  /** The unread sheets of each pass returned are counted, apart from those of the last if a signal landed just then. */
  ghost predicate Counted(batches: Batches, unreadable: nat, interrupted: bool) {
    unreadable == RejectsIn(batches) || (interrupted && batches.Batched? && unreadable == RejectsIn(batches.before))
  }

  /** The passes for which the scanner returned pages. */
  ghost function ReturnedPasses(batches: Batches): set<Label> {
    match batches
    case NoBatch => {}
    case Batched(before, last) => ReturnedPasses(before) + if last.batch.pages != [] then {last.pass} else {}
  }

  function NumberOf(pass: Label): nat {
    if pass.Numbered? then pass.number else 0
  }

  function Higher(a: nat, b: nat): nat {
    if a < b then b else a
  }

  ghost function LatestThrown(throws: Throws): nat {
    match throws
    case NoThrows => 0
    case Then(before, last) => Higher(LatestThrown(before), NumberOf(last.Pass()))
  }

  ghost function LatestFailed(failed: Failures): nat {
    match failed
    case NoFailure => 0
    case Fell(before, last) => Higher(LatestFailed(before), NumberOf(last.pass))
  }

  ghost function LatestReturned(batches: Batches): nat {
    match batches
    case NoBatch => 0
    case Batched(before, last) => Higher(LatestReturned(before), NumberOf(last.pass))
  }

  lemma {:induction false} LaterIsNotThrown(throws: Throws, number: nat)
    requires LatestThrown(throws) < number
    ensures Numbered(number) !in ThrownPasses(throws)
  {
    if throws.Then? {
      LaterIsNotThrown(throws.before, number);
    }
  }

  lemma {:induction false} LaterDidNotFail(failed: Failures, number: nat)
    requires LatestFailed(failed) < number
    ensures Numbered(number) !in FailedPasses(failed)
  {
    if failed.Fell? {
      LaterDidNotFail(failed.before, number);
    }
  }

  lemma {:induction false} LaterWasNotReturned(batches: Batches, number: nat)
    requires LatestReturned(batches) < number
    ensures Numbered(number) !in ReturnedPasses(batches)
  {
    if batches.Batched? {
      LaterWasNotReturned(batches.before, number);
    }
  }

  /** Nothing was taken back: each page recorded before and each pass thrown away before still is. */
  ghost predicate Later(recorded: map<Path, Image>, throws: Throws, recordedNow: map<Path, Image>, throwsNow: Throws) {
    recorded.Keys <= recordedNow.Keys && ThrownPasses(throws) <= ThrownPasses(throwsNow)
  }

  /** What happened to the pages of a run: nothing is ever taken back from it. */
  class PageHistory {
    /** Every page a sink recorded, with its image; only `AddSheet` records one. */
    ghost var recorded: map<Path, Image>
    /** Every pass thrown away; only `Discard` and the undoing of an accept throw one away. */
    ghost var throws: Throws
    /** Every pass of a multi-page run that failed, recorded where its scan ended. */
    ghost var failed: Failures
    /** What the scanner returned for each pass that it finished. */
    ghost var batches: Batches
    /** The turns of a multi-page run that finished. */
    ghost var turns: Turns

    constructor ()
      ensures recorded == map[] && throws == NoThrows && failed == NoFailure && batches == NoBatch && turns == NoTurns
    {
      recorded, throws, failed, batches, turns := map[], NoThrows, NoFailure, NoBatch, NoTurns;
    }

    /** The highest number of a pass that has come to something: thrown away, failed or returned. */
    ghost function Latest(): nat
      reads this`throws, this`failed, this`batches
    {
      Higher(LatestThrown(throws), Higher(LatestFailed(failed), LatestReturned(batches)))
    }

    /** This pass has not come to anything. */
    ghost predicate IsNew(pass: Label)
      reads this`throws, this`failed, this`batches
    {
      pass !in ThrownPasses(throws) && pass !in FailedPasses(failed) && pass !in ReturnedPasses(batches)
    }

    lemma NextIsNew(number: nat)
      requires Latest() < number
      ensures IsNew(Numbered(number))
    {
      LaterIsNotThrown(throws, number);
      LaterDidNotFail(failed, number);
      LaterWasNotReturned(batches, number);
    }

    /** No pass failed for which the scanner returned pages. */
    ghost predicate FailuresAreReal()
      reads this`failed, this`batches
    {
      FailedPasses(failed) * ReturnedPasses(batches) == {}
    }

    /** The pages the run owes its operator. */
    ghost function Owed(): map<Path, Image>
      reads this`recorded, this`throws
    {
      PagesOwed(recorded, ThrownPasses(throws))
    }
  }

  class SpoolLedger {
    /** The history of the run this ledger belongs to. */
    ghost const history: PageHistory
    var passes: seq<Registered>
    var unreadableSheets: nat
    /** What the sinks of the registered passes hold. */
    ghost var flight: seq<Pass>

    constructor (ghost history: PageHistory)
      ensures this.history == history
      ensures passes == [] && unreadableSheets == 0 && flight == []
    {
      this.history := history;
      passes, unreadableSheets, flight := [], 0, [];
    }

    ghost function Sinks(): set<SpooledPageSink>
      reads this`passes
    {
      set e | e in passes :: e.sink
    }

    ghost predicate Mirrored()
      reads this`passes, this`flight, Sinks()
    {
      && |flight| == |passes|
      && forall i :: 0 <= i < |passes| ==> flight[i] == Pass(passes[i].part, passes[i].sink.records)
    }

    /** A pass that ended keeps its records, so the ledger still mirrors it. */
    twostate lemma MirrorStays()
      requires old(Mirrored()) && passes == old(passes) && flight == old(flight)
      requires forall s: SpooledPageSink {:trigger s.records} | old(allocated(s)) :: s.records == old(s.records)
      ensures Mirrored()
    {
    }

    /** One more pass is in flight beside those. */
    twostate lemma MirrorGrows(part: Part, new sink: SpooledPageSink)
      requires old(Mirrored())
      requires passes == old(passes) + [Registered(part, sink)] && flight == old(flight) + [Pass(part, sink.records)]
      requires forall s: SpooledPageSink {:trigger s.records} | old(allocated(s)) :: s.records == old(s.records)
      ensures Mirrored()
    {
    }

    /** Record a pass that is about to start, under the name its PDF would be kept as. */
    method Register(part: Part, sink: SpooledPageSink)
      modifies this`passes, this`flight
      ensures passes == old(passes) + [Registered(part, sink)]
      ensures flight == old(flight) + [Pass(part, sink.records)]
    {
      passes := passes + [Registered(part, sink)];
      flight := flight + [Pass(part, sink.records)];
    }

    /** Stop tracking an accepted pass; its page files stay where they are. */
    method Forget(sink: SpooledPageSink)
      requires |flight| == |passes|
      modifies this`passes, this`flight
      ensures passes == Without(old(passes), sink) && flight == FlightWithout(old(passes), old(flight), sink)
    {
      flight := FlightWithout(passes, flight, sink);
      passes := Without(passes, sink);
    }

    /**
     * `discard`: stop tracking a thrown-away pass, and then delete its page files.  In that
     * order, so wherever a signal lands every page still owed has its file.
     */
    method Discard(sink: SpooledPageSink, disk: Disk, signal: Interruption, ghost document: set<Path>, ghost throw: Throw)
      returns (r: Step<()>)
      requires |flight| == |passes| && Apart(passes, flight, sink, PathSet(sink.records))
      requires sink.Valid() && throw.Pass() == sink.pass && NoneOf(document, sink.pass)
      requires NoneOf(FlightFiles(flight) - PathSet(sink.records), sink.pass)
      requires Safe(history.Owed(), document + FlightFiles(flight), disk.files)
      modifies this`passes, this`flight, history`throws, disk`files, disk`faults, signal`received, signal`deferred
      ensures Safe(history.Owed(), document + FlightFiles(flight), disk.files)
      ensures history.throws in {old(history.throws), Then(old(history.throws), throw)}
      ensures r.Value? ==> history.throws == Then(old(history.throws), throw)
      ensures Outside(disk.files) == Outside(old(disk.files))
      ensures || (passes == old(passes) && flight == old(flight))
              || (passes == Without(old(passes), sink) && flight == FlightWithout(old(passes), old(flight), sink))
      ensures r.Value? ==> passes == Without(old(passes), sink) && flight == FlightWithout(old(passes), old(flight), sink)
      ensures r.Value? ==> history.Owed() == old(history.Owed()) - PathSet(sink.records)
      ensures OnlyGone(old(disk.files), disk.files, PathSet(sink.records))
      ensures disk.faults >= old(disk.faults)
      ensures r.Value? && disk.faults == old(disk.faults) ==> disk.files == old(disk.files) - PathSet(sink.records)
      ensures r.Value? && !signal.settled ==> signal.received == old(signal.received)
      ensures r.Raised? ==> r.ending == Interrupted && signal.received && !old(signal.received)
      ensures old(signal.received) ==> signal.received
    {
      PagesOfPass(sink, document + FlightFiles(flight));
      :- signal.Boundary();
      ForgetThrown(sink, document, disk.files, throw);
      :- signal.Boundary();
      r := UnlinkPages(sink.records, disk, signal, history.Owed(), document + FlightFiles(flight));
    }

    /** Stop tracking a pass: from here the operator, or the failure, has thrown it away. */
    method ForgetThrown(sink: SpooledPageSink, ghost document: set<Path>, ghost files: FileMap, ghost throw: Throw)
      requires |flight| == |passes| && Apart(passes, flight, sink, PathSet(sink.records)) && throw.Pass() == sink.pass
      requires PathSet(sink.records) !! document && Safe(history.Owed(), document + FlightFiles(flight), files)
      requires FilesOf(document + FlightFiles(flight), sink.pass) == PathSet(sink.records) * (document + FlightFiles(flight))
      modifies this`passes, this`flight, history`throws
      ensures passes == Without(old(passes), sink) && flight == FlightWithout(old(passes), old(flight), sink)
      ensures history.throws == Then(old(history.throws), throw)
      ensures history.Owed() == old(history.Owed()) - PathSet(sink.records)
      ensures FlightFiles(flight) == FlightFiles(old(flight)) - PathSet(sink.records)
      ensures Safe(history.Owed(), document + FlightFiles(flight), files)
    {
      ghost var gone, left, owed := PathSet(sink.records), FlightWithout(passes, flight, sink), history.Owed();
      assert FlightFiles(left) == FlightFiles(flight) - gone by {
        FilesWithout(passes, flight, sink, gone);
      }
      assert Safe(owed - gone, document + FlightFiles(left), files) by {
        SafeForgets(owed, document, FlightFiles(flight), files, gone);
      }
      assert PagesOwed(history.recorded, ThrownPasses(history.throws) + {sink.pass}) == owed - gone by {
        assert owed.Keys == document + FlightFiles(flight);
        ThrowingForgets(history.recorded, ThrownPasses(history.throws), sink.pass, gone);
      }
      Forget(sink);
      history.throws := Then(history.throws, throw);
      assert history.Owed() == owed - gone;
    }

    /** The registered passes as the guard would find them. */
    function InFlight(): (r: seq<Pass>)
      reads this, Sinks()
      ensures |r| == |passes|
      ensures forall i :: 0 <= i < |r| ==> r[i] == Pass(passes[i].part, passes[i].sink.records)
    {
      seq(|passes|, i requires 0 <= i < |passes| reads this, Sinks() => Pass(passes[i].part, passes[i].sink.records))
    }

    /** `spooled`: the passes that put pages on the spool. */
    function Spooled(): seq<Pass>
      reads this, Sinks()
    {
      NonEmpty(InFlight())
    }
  }
}
