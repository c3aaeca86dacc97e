/**
 * One acquisition pass, as the scanner backend's contract has it: any number of sheets up to
 * the cap, a failure or a stop after any of them, and a batch of exactly the sink's records.
 */
module Scanner {
  import opened Outcomes
  import opened Signals
  import opened FileSystem
  import opened SpoolNames
  import opened Pages
  import opened Spool
  import opened MultiPage
  import opened Ledger

  /** One more page was recorded, and is owed from here. */
  lemma PageOwed(owed: map<Path, Image>, others: set<Path>, sink: SpooledPageSink, before: FileMap, after: FileMap,
                 was: seq<PageRecord>, sheet: Sheet)
    requires Safe(owed, others + PathSet(was), before) && NoneOf(others, sink.pass) && sink.Valid()
    requires sink.records == was + [Record(sink.pass, |was| + 1, sheet)]
    requires OnlyPage(before, after, sink.pass, |was| + 1, sheet.image)
    requires PageFile(sink.pass, |was| + 1) in after && after[PageFile(sink.pass, |was| + 1)] == [sheet.image]
    ensures PageFile(sink.pass, |was| + 1) !in owed
    ensures Safe(owed[PageFile(sink.pass, |was| + 1) := sheet.image], others + PathSet(sink.records), after)
    ensures PathSet(sink.records) == PathSet(was) + {PageFile(sink.pass, |was| + 1)}
    ensures PartFile(sink.pass, |was| + 1) !in after && SpoolPart(before).Keys == others + PathSet(was) ==>
              SpoolPart(after).Keys == others + PathSet(sink.records)
  {
    var file, part := PageFile(sink.pass, |was| + 1), PartFile(sink.pass, |was| + 1);
    var record := Record(sink.pass, |was| + 1, sheet);
    PathSetAppends(was, [record]);
    assert PathSet([record]) == {file};
    assert file !in PathSet(was) by {
      forall i | 0 <= i < |was| ensures was[i].path != file {
        assert was[i] == sink.records[i];
      }
    }
    UntouchedStay(before, after, file, part);
    SafeMeans(owed, others + PathSet(was), before);
    SafeMeans(owed[file := sheet.image], others + PathSet(sink.records), after);
  }

  lemma UntouchedStay(before: FileMap, after: FileMap, file: Path, part: Path)
    requires after - {file, part} == before - {file, part}
    ensures forall p | p != file && p != part :: (p in before <==> p in after) && (p in before ==> after[p] == before[p])
    ensures file.SpoolFile? && file in after && part !in after && part !in before ==>
              SpoolPart(after).Keys == SpoolPart(before).Keys + {file}
  {
    forall p | p != file && p != part ensures (p in before <==> p in after) && (p in before ==> after[p] == before[p]) {
      assert p in before <==> p in before - {file, part};
      assert p in after <==> p in after - {file, part};
      if p in before {
        assert (before - {file, part})[p] == before[p] && (after - {file, part})[p] == after[p];
      }
    }
  }

  /** A page that could not be spooled touches no page already owed. */
  lemma PageNotOwed(owed: map<Path, Image>, others: set<Path>, sink: SpooledPageSink, before: FileMap, after: FileMap, image: Image)
    requires Safe(owed, others + PathSet(sink.records), before) && NoneOf(others, sink.pass) && sink.Valid()
    requires OnlyPage(before, after, sink.pass, |sink.records| + 1, image)
    ensures Safe(owed, others + PathSet(sink.records), after)
  {
    UntouchedStay(before, after, PageFile(sink.pass, |sink.records| + 1), PartFile(sink.pass, |sink.records| + 1));
  }

  /** How a pass can fail: at the scanner or its feeder, in the spool, or by being stopped. */
  predicate PassEnds(ending: Ending) {
    ending in {Interrupted, Failed(ScannerFault), Failed(FeederFault), Failed(SpoolFault), Failed(DiskSpace)}
  }

  lemma OnlyPageInside(before: FileMap, after: FileMap, pass: Label, sequence: nat, image: Image)
    requires OnlyPage(before, after, pass, sequence, image)
    ensures Outside(after) == Outside(before)
  {
    OutsideFrame(before, after, {PageFile(pass, sequence), PartFile(pass, sequence)});
  }

  /**
   * Spool one sheet into the sink, and owe it as soon as it is recorded.  A sheet whose mode
   * cannot be stored is a fault of the scanner, whether or not a signal landed meanwhile.
   */
  method AddSheet(sink: SpooledPageSink, sheet: Sheet, ghost history: PageHistory, disk: Disk, signal: Interruption,
                  ghost others: set<Path>)
    returns (r: Step<()>)
    requires sink.Valid() && !signal.settled
    requires Safe(history.Owed(), others + PathSet(sink.records), disk.files) && NoneOf(others, sink.pass)
    requires sink.pass !in ThrownPasses(history.throws)
    modifies sink`records, history`recorded, disk`files, disk`faults, signal`received, signal`deferred
    ensures sink.Valid() && Safe(history.Owed(), others + PathSet(sink.records), disk.files)
    ensures Outside(disk.files) == Outside(old(disk.files))
    ensures |sink.records| <= |old(sink.records)| + 1
    ensures history.Owed() - PathSet(sink.records) == old(history.Owed() - PathSet(sink.records))
    ensures r.Value? || r.ending == Interrupted ==>
              && sink.records == old(sink.records) + [Record(sink.pass, |old(sink.records)| + 1, sheet)]
              && PageFile(sink.pass, |sink.records|) !in old(history.recorded)
              && history.recorded == old(history.recorded)[PageFile(sink.pass, |sink.records|) := sheet.image]
    ensures r.Raised? && r.ending != Interrupted ==> sink.records == old(sink.records) && history.recorded == old(history.recorded)
    ensures r.Raised? ==> r.ending in {Interrupted, Failed(ScannerFault), Failed(SpoolFault), Failed(DiskSpace)}
    ensures r.Value? ==> signal.received == old(signal.received)
    ensures r == Raised(Failed(ScannerFault)) <==> !sheet.modeStored
    ensures r.Value? || r.ending == Failed(ScannerFault) ==>
              Tidy(old(others + PathSet(sink.records)), old(disk.files), true) ==>
              Tidy(others + PathSet(sink.records), disk.files, true)
    ensures disk.faults >= old(disk.faults)
  {
    ghost var was, before := sink.records, disk.files;
    ghost var thrown := ThrownPasses(history.throws);
    var added := sink.Add(disk, signal, sheet);
    OnlyPageInside(before, disk.files, sink.pass, |was| + 1, sheet.image);
    if added.Value? || added.ending == Interrupted {
      PageOwed(history.Owed(), others, sink, before, disk.files, was, sheet);
      RecordingOwes(history.recorded, thrown, PageFile(sink.pass, |sink.records|), sheet.image);
      history.recorded := history.recorded[PageFile(sink.pass, |sink.records|) := sheet.image];
    } else {
      PageNotOwed(history.Owed(), others, sink, before, disk.files, sheet.image);
    }
    if added.Raised? {
      return Raised(added.ending);
    }
    return Value(());
  }

  /** What the device does next. */
  datatype Device = Feeds | Ends | Jams | Faults | Stops

  /**
   * `scan_pages`: feed and spool sheets until the stack, the cap, a fault or a stop ends the pass.
   * A signal that lands ends it too, except where the spool's own failure is raised instead.
   */
  method ScanPages(sink: SpooledPageSink, ghost history: PageHistory, disk: Disk, signal: Interruption, ghost others: set<Path>)
    returns (r: Step<ScanBatch>)
    requires sink.Valid() && sink.records == [] && !signal.settled
    requires Safe(history.Owed(), others, disk.files) && NoneOf(others, sink.pass)
    requires sink.pass !in ThrownPasses(history.throws)
    modifies sink`records, history`recorded, history`batches, disk, signal`received, signal`deferred
    ensures sink.Valid() && Safe(history.Owed(), others + PathSet(sink.records), disk.files)
    ensures Outside(disk.files) == Outside(old(disk.files))
    ensures |sink.records| <= MAX_PAGES_PER_PASS
    ensures history.Owed() - PathSet(sink.records) == old(history.Owed())
    ensures old(history.recorded).Keys <= history.recorded.Keys
    ensures r.Value? ==> r.value.pages == sink.records && history.batches == Batched(old(history.batches), Returned(sink.pass, r.value))
    ensures r.Raised? ==> history.batches == old(history.batches)
    ensures r.Raised? ==> PassEnds(r.ending)
    ensures r.Value? || r.ending == Failed(FeederFault) ==> signal.received == old(signal.received)
    ensures r.Value? || r.ending in {Failed(ScannerFault), Failed(FeederFault)} ==>
              Tidy(others, old(disk.files), true) ==>
              Tidy(others + PathSet(sink.records), disk.files, true)
    ensures disk.faults >= old(disk.faults)
  {
    assert others + PathSet(sink.records) == others;
    assert history.Owed() - PathSet(sink.records) == history.Owed();
    while |sink.records| < MAX_PAGES_PER_PASS
      invariant sink.Valid() && Safe(history.Owed(), others + PathSet(sink.records), disk.files)
      invariant Outside(disk.files) == Outside(old(disk.files))
      invariant |sink.records| <= MAX_PAGES_PER_PASS
      invariant history.Owed() - PathSet(sink.records) == old(history.Owed())
      invariant Tidy(others, old(disk.files), true) ==>
                Tidy(others + PathSet(sink.records), disk.files, true)
      invariant disk.faults >= old(disk.faults) && signal.received == old(signal.received)
      invariant history.batches == old(history.batches) && old(history.recorded).Keys <= history.recorded.Keys
    {
      :- signal.Boundary();
      var next: Device := *;
      match next
      case Ends => break;
      case Jams => return Raised(Failed(FeederFault));
      case Faults => return Raised(Failed(ScannerFault));
      case Stops => return Raised(Interrupted);
      case Feeds =>
        var sheet: Sheet := *;
        // Anybody may have used or freed space on the disk since the last sheet.
        disk.hasRoom := *;
        var _ :- AddSheet(sink, sheet, history, disk, signal, others);
    }
    var rejected: nat := *;
    var cap: Option<PassCap> := *;
    var batch := ScanBatch(sink.records, rejected, cap);
    history.batches := Batched(history.batches, Returned(sink.pass, batch));
    return Value(batch);
  }
}
