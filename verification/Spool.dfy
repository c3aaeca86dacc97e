/** The sink an acquisition pass spools its pages into, one whole file for each recorded sheet. */
module Spool {
  import opened Outcomes
  import opened Signals
  import opened FileSystem
  import opened SpoolNames
  import opened Pages

  /** What the scanner delivered for one side, what is measured of it, and whether its mode can be stored. */
  datatype Sheet = Sheet(image: Image, inkCoverage: real, paperWhite: nat, modeStored: bool)

  function PageFile(pass: Label, sequence: nat): Path {
    SpoolFile(Entry(pass, sequence, false))
  }

  function PartFile(pass: Label, sequence: nat): Path {
    SpoolFile(Entry(pass, sequence, true))
  }

  function Record(pass: Label, sequence: nat, sheet: Sheet): PageRecord {
    PageRecord(sequence, PageFile(pass, sequence), sheet.inkCoverage, sheet.paperWhite)
  }

  /** Nothing but one page's file and its `.part` file changed; the page's file is only ever whole. */
  ghost predicate OnlyPage(before: FileMap, after: FileMap, pass: Label, sequence: nat, image: Image) {
    var file, part := PageFile(pass, sequence), PartFile(pass, sequence);
    && (after - {file, part} == before - {file, part})
    && (Same(before, after, file) || (file in after && after[file] == [image]))
  }

  lemma OnlyPageSteps(before: FileMap, pass: Label, sequence: nat, image: Image, images: seq<Image>)
    ensures OnlyPage(before, before, pass, sequence, image)
    ensures OnlyPage(before, before[PartFile(pass, sequence) := images], pass, sequence, image)
    ensures OnlyPage(before, before - {PartFile(pass, sequence)}, pass, sequence, image)
    ensures OnlyPage(before, before[PageFile(pass, sequence) := [image]] - {PartFile(pass, sequence)}, pass, sequence, image)
  {
  }

  lemma OnlyPageTwice(before: FileMap, mid: FileMap, after: FileMap, pass: Label, sequence: nat, image: Image)
    requires OnlyPage(before, mid, pass, sequence, image) && OnlyPage(mid, after, pass, sequence, image)
    ensures OnlyPage(before, after, pass, sequence, image)
  {
  }

  /** What stops a page reaching the spool, apart from an interruption. */
  predicate SpoolStops(fault: Fault) {
    fault == ScannerFault || fault == SpoolFault || fault == DiskSpace
  }

  class SpooledPageSink {
    const pass: Label
    var records: seq<PageRecord>

    constructor (pass: Label)
      ensures this.pass == pass && records == []
    {
      this.pass := pass;
      records := [];
    }

    /** Pages are numbered in the order they were fed, and named after their numbers. */
    ghost predicate Valid()
      reads this
    {
      forall i :: 0 <= i < |records| ==>
        records[i].sequence == i + 1 && records[i].path == PageFile(pass, i + 1)
    }

    /** `_write`: save under `.part`, then rename; a failure removes the `.part` file. */
    method Write(disk: Disk, signal: Interruption, image: Image) returns (r: Step<()>)
      requires !signal.settled
      modifies disk`files, disk`faults, signal`received, signal`deferred
      ensures OnlyPage(old(disk.files), disk.files, pass, |records| + 1, image)
      ensures r.Value? ==>
                disk.files == old(disk.files)[PageFile(pass, |records| + 1) := [image]] - {PartFile(pass, |records| + 1)}
      ensures r.Value? ==> disk.faults == old(disk.faults) && signal.received == old(signal.received)
      ensures r.Raised? && r.ending == Interrupted ==> signal.received && !old(signal.received)
      ensures r.Raised? ==> r.ending in {Interrupted, Failed(SpoolFault), Failed(DiskSpace)}
      ensures r.Raised? && r.ending != Interrupted ==> disk.faults > old(disk.faults) && !disk.steady
      ensures old(signal.received) ==> signal.received
      ensures disk.faults >= old(disk.faults)
    {
      ghost var sequence := |records| + 1;
      OnlyPageSteps(disk.files, pass, sequence, image, []);
      OnlyPageSteps(disk.files, pass, sequence, image, [image]);
      var file, part := PageFile(pass, |records| + 1), PartFile(pass, |records| + 1);
      :- signal.Boundary();
      var written := disk.Save(part, image);
      if written {
        :- signal.Boundary();
        written := disk.Replace(part, file);
      }
      if !written {
        var full: bool := *;
        var _ := disk.Unlink(part);
        return Raised(Failed(if full then DiskSpace else SpoolFault));
      }
      return Value(());
    }

    /** `_spool`: normalise, check room, measure and write the next page, recording nothing. */
    method Spool(disk: Disk, signal: Interruption, sheet: Sheet) returns (r: Step<PageRecord>)
      requires !signal.settled
      modifies disk`files, disk`faults, signal`received, signal`deferred
      ensures OnlyPage(old(disk.files), disk.files, pass, |records| + 1, sheet.image)
      ensures r.Value? ==> r.value == Record(pass, |records| + 1, sheet)
      ensures r.Value? ==>
                disk.files == old(disk.files)[r.value.path := [sheet.image]] - {PartFile(pass, |records| + 1)}
      ensures r.Value? ==> signal.received == old(signal.received)
      ensures r.Raised? && r.ending == Interrupted ==> signal.received && !old(signal.received)
      ensures r.Raised? ==> r.ending == Interrupted || (r.ending.Failed? && SpoolStops(r.ending.fault))
      ensures r.Raised? && r.ending == Failed(ScannerFault) ==> !sheet.modeStored
      ensures !sheet.modeStored ==> r.Raised? && r.ending in {Interrupted, Failed(ScannerFault)} && disk.files == old(disk.files)
      ensures !disk.hasRoom ==> r.Raised?
      ensures r.Raised? && r.ending != Interrupted && sheet.modeStored && disk.hasRoom ==>
                disk.faults > old(disk.faults) && !disk.steady
      ensures old(signal.received) ==> signal.received
      ensures disk.faults >= old(disk.faults)
    {
      OnlyPageSteps(disk.files, pass, |records| + 1, sheet.image, []);
      :- signal.Boundary();
      if !sheet.modeStored {
        return Raised(Failed(ScannerFault));
      }
      :- signal.Boundary();
      // Refused when the room cannot be measured, and when it has run out since.
      var unmeasured := disk.Refuses();
      if unmeasured {
        var full: bool := *;
        return Raised(Failed(if full then DiskSpace else SpoolFault));
      }
      if !disk.hasRoom {
        return Raised(Failed(DiskSpace));
      }
      :- signal.Boundary();
      var _ :- Write(disk, signal, sheet.image);
      return Value(Record(pass, |records| + 1, sheet));
    }

    /** The body of the `try`: spool the page and record it, a signal landing on either side. */
    method SpoolAndRecord(disk: Disk, signal: Interruption, sheet: Sheet) returns (r: Step<PageRecord>)
      requires !signal.settled
      modifies this`records, disk`files, disk`faults, signal`received, signal`deferred
      ensures OnlyPage(old(disk.files), disk.files, pass, |old(records)| + 1, sheet.image)
      ensures records == old(records) || records == old(records) + [Record(pass, |old(records)| + 1, sheet)]
      ensures records != old(records) ==>
                disk.files == old(disk.files)[PageFile(pass, |records|) := [sheet.image]] - {PartFile(pass, |records|)}
      ensures r.Value? ==> |records| > |old(records)| && r.value == records[|old(records)|]
      ensures r.Value? ==> signal.received == old(signal.received)
      ensures r.Raised? && r.ending == Interrupted ==> signal.received && !old(signal.received)
      ensures r.Raised? && r.ending != Interrupted ==> records == old(records) && r.ending.Failed? && SpoolStops(r.ending.fault)
      ensures r.Raised? && r.ending == Failed(ScannerFault) ==> !sheet.modeStored
      ensures !sheet.modeStored ==> r.Raised? && r.ending in {Interrupted, Failed(ScannerFault)} && disk.files == old(disk.files)
      ensures !disk.hasRoom ==> r.Raised?
      ensures r.Raised? && r.ending != Interrupted && sheet.modeStored && disk.hasRoom ==>
                disk.faults > old(disk.faults) && !disk.steady
      ensures old(signal.received) ==> signal.received
      ensures disk.faults >= old(disk.faults)
      ensures !sheet.modeStored || !disk.hasRoom ==> r.Raised? && records == old(records)
    {
      var record :- Spool(disk, signal, sheet);
      :- signal.Boundary();
      records := records + [record];
      :- signal.Boundary();
      return Value(record);
    }

    /**
     * `add`.  Wherever a signal lands, the sheet is recorded exactly once, under the next
     * number and with its whole image on disk, and only then does the interruption go on.
     * When the page cannot be spooled nothing is recorded, and a file of its final name is
     * there only if it is whole.
     *
     * The second attempt is made in the handler of the interruption, so a failure of its own is
     * raised instead of it.  Where the system refuses nothing, an interruption that lands here
     * goes on exactly when the sheet's mode can be stored and there is room for it; anywhere
     * else too it is lost only to one of these or to a refusal.
     */
    method Add(disk: Disk, signal: Interruption, sheet: Sheet) returns (r: Step<PageRecord>)
      requires Valid() && !signal.settled
      modifies this`records, disk`files, disk`faults, signal`received, signal`deferred
      ensures Valid()
      ensures OnlyPage(old(disk.files), disk.files, pass, |old(records)| + 1, sheet.image)
      ensures r.Value? || r.ending == Interrupted ==>
                && records == old(records) + [Record(pass, |old(records)| + 1, sheet)]
                && PageFile(pass, |records|) in disk.files
                && disk.files[PageFile(pass, |records|)] == [sheet.image]
                && PartFile(pass, |records|) !in disk.files
      ensures r.Value? ==> r.value == records[|old(records)|] && signal.received == old(signal.received)
      ensures r.Raised? && r.ending == Interrupted ==> signal.received && !old(signal.received)
      ensures r.Raised? && r.ending != Interrupted ==> records == old(records) && r.ending.Failed? && SpoolStops(r.ending.fault)
      ensures r == Raised(Failed(ScannerFault)) ==> !sheet.modeStored && disk.files == old(disk.files)
      ensures !sheet.modeStored ==> r == Raised(Failed(ScannerFault))
      ensures r == Raised(Interrupted) ==> sheet.modeStored && disk.hasRoom
      ensures signal.received && !old(signal.received) && disk.steady ==>
                (r == Raised(Interrupted) <==> sheet.modeStored && disk.hasRoom)
      ensures r.Raised? && r.ending != Interrupted ==>
                !sheet.modeStored || !disk.hasRoom || disk.faults > old(disk.faults)
      ensures old(signal.received) ==> signal.received
      ensures disk.faults >= old(disk.faults)
    {
      var recorded := |records|;
      ghost var before := disk.files;
      r := SpoolAndRecord(disk, signal, sheet);
      if r == Raised(Interrupted) && |records| == recorded {
        ghost var mid := disk.files;
        var record :- Spool(disk, signal, sheet);
        OnlyPageTwice(before, mid, disk.files, pass, recorded + 1, sheet.image);
        records := records + [record];
      }
    }
  }
}
