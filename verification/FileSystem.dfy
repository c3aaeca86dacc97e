/**
 * The files a run touches: its spool, its workspace and the durable `failed/` directory.
 * Every call may be refused, so what is proved holds under any pattern of failures; the
 * ghost count of refusals lets a contract also say what a run without any does.
 */
module FileSystem {
  import opened Outcomes
  import opened SpoolNames

  /** One scanned side, told apart from every other by its number. */
  type Image = nat

  /** Which PDF of a job a name stands for, from the bracketed part of the name. */
  datatype Part = WholePart | FrontsPart | BacksPart | PartialPart

  datatype Path =
    | SpoolFile(entry: Entry)
    | AssembledPdf(part: Part)
    | PreservedPdf(part: Part)
    | FailedPdf(part: Part, attempt: nat)
    | FailedPage(entry: Entry)
    | FailedDirectory

  /** What each file holds: one image for a page file, the pages in order for a PDF. */
  type FileMap = map<Path, seq<Image>>

  predicate IsKept(p: Path) {
    p.FailedPdf? || p.FailedPage?
  }

  /** The pages of a PDF built from `paths`, in order. */
  function Images(files: FileMap, paths: seq<Path>): (images: seq<Image>)
    requires forall p | p in paths :: p in files
  {
    if paths == [] then [] else files[paths[0]] + Images(files, paths[1..])
  }

  lemma {:induction false} ImagesHold(files: FileMap, paths: seq<Path>, p: Path, image: Image)
    requires forall q | q in paths :: q in files
    requires p in paths && image in files[p]
    ensures image in Images(files, paths)
  {
    if p != paths[0] {
      ImagesHold(files, paths[1..], p, image);
    }
  }

  lemma {:induction false} ImagesFrame(before: FileMap, after: FileMap, paths: seq<Path>)
    requires forall q | q in paths :: q in before && q in after && after[q] == before[q]
    ensures Images(after, paths) == Images(before, paths)
  {
    if paths != [] {
      ImagesFrame(before, after, paths[1..]);
    }
  }

  /** Nothing under `failed/` is ever removed or replaced. */
  ghost predicate KeptStays(before: FileMap, after: FileMap) {
    forall p {:trigger p in before} | p in before && IsKept(p) :: p in after && after[p] == before[p]
  }

  /** The spool alone: the page files and the files being written. */
  ghost function SpoolPart(files: FileMap): FileMap {
    map p | p in files && p.SpoolFile? :: files[p]
  }

  /** The PDFs a delivery assembled, alone. */
  ghost function AssembledPart(files: FileMap): FileMap {
    map p | p in files && p.AssembledPdf? :: files[p]
  }

  lemma PartsFrame(files: FileMap, p: Path, images: seq<Image>)
    ensures !p.SpoolFile? ==> SpoolPart(files[p := images]) == SpoolPart(files) == SpoolPart(files - {p})
    ensures !p.AssembledPdf? ==> AssembledPart(files[p := images]) == AssembledPart(files) == AssembledPart(files - {p})
  {
  }

  /** The image is in a file under `failed/`. */
  ghost predicate InFailed(files: FileMap, image: Image) {
    exists p | p in files :: IsKept(p) && image in files[p]
  }

  /** The image is in a file of the spool. */
  ghost predicate InSpool(files: FileMap, image: Image) {
    exists p | p in SpoolPart(files) :: image in files[p]
  }

  lemma InFailedStays(before: FileMap, after: FileMap, image: Image)
    requires KeptStays(before, after) && InFailed(before, image)
    ensures InFailed(after, image)
  {
    var p :| p in before && IsKept(p) && image in before[p];
    assert p in after;
  }

  /** Each file of the spool, once. */
  ghost predicate IsListing(files: FileMap, listing: seq<Entry>) {
    && (forall e :: SpoolFile(e) in files <==> e in listing)
    && EachOnce(listing)
  }

  lemma {:induction false} ListingCounts(files: FileMap, listing: seq<Entry>)
    requires IsListing(files, listing)
    ensures |listing| == |SpoolPart(files)|
  {
    if listing == [] {
      assert forall p :: p !in SpoolPart(files);
      assert SpoolPart(files).Keys == {};
    } else {
      var k := |listing| - 1;
      var e := listing[k];
      var fewer := listing[..k];
      assert listing == fewer + [e];
      assert e !in fewer;
      ListingCounts(files - {SpoolFile(e)}, fewer);
      assert SpoolPart(files).Keys == SpoolPart(files - {SpoolFile(e)}).Keys + {SpoolFile(e)};
    }
  }

  /** `has_pages_left`: some whole page file is still in the spool. */
  predicate HasPagesLeft(files: FileMap) {
    exists p | p in files :: p.SpoolFile? && !p.entry.partial
  }

  /** The files outside a run's workspace. */
  ghost function Outside(files: FileMap): FileMap {
    map p | p in files && (IsKept(p) || p.FailedDirectory?) :: files[p]
  }

  predicate InWorkspace(p: Path) {
    !IsKept(p) && !p.FailedDirectory?
  }

  /** Files of the workspace come and go without touching what is outside it. */
  lemma OutsideFrame(before: FileMap, after: FileMap, inside: set<Path>)
    requires before - inside == after - inside && forall p | p in inside :: InWorkspace(p)
    ensures Outside(after) == Outside(before)
  {
    forall p | IsKept(p) || p.FailedDirectory? ensures Same(before, after, p) {
      assert p !in inside;
      assert p in before <==> p in before - inside;
      assert p in after <==> p in after - inside;
      if p in before {
        assert (before - inside)[p] == before[p] && (after - inside)[p] == after[p];
      }
    }
    assert Outside(after).Keys == Outside(before).Keys;
  }

  /** The file is as it was, present or not. */
  ghost predicate Same(before: FileMap, after: FileMap, file: Path) {
    (file in after <==> file in before) && (file in after ==> after[file] == before[file])
  }

  lemma OutsideKept(before: FileMap, after: FileMap)
    requires Outside(after) == Outside(before)
    ensures KeptStays(before, after)
  {
    forall p | p in before && IsKept(p) ensures p in after && after[p] == before[p] {
      assert p in Outside(before) && p in Outside(after);
    }
  }

  datatype Link = Linked | Exists | CopyInstead | LinkRefused

  datatype Move = Moved | Taken | Refused

  class Disk {
    var files: FileMap
    /** Whether another page would fit beside the reserve. */
    var hasRoom: bool
    /** Whether this is a system that never refuses a call. */
    const steady: bool
    /** How many calls the system has refused so far. */
    ghost var faults: nat

    constructor (files: FileMap, hasRoom: bool, steady: bool)
      ensures this.files == files && this.hasRoom == hasRoom && this.steady == steady && faults == 0
    {
      this.files, this.hasRoom, this.steady := files, hasRoom, steady;
      faults := 0;
    }

    /** Whether the system refuses the call being made. */
    method Refuses() returns (refused: bool)
      modifies this`faults
      ensures refused ==> faults == old(faults) + 1 && !steady
      ensures !refused ==> faults == old(faults)
    {
      refused := *;
      if steady {
        return false;
      }
      if refused {
        faults := faults + 1;
      }
    }

    /** Remove a file, or do nothing when it is already gone. */
    method Unlink(p: Path) returns (ok: bool)
      modifies this`files, this`faults
      ensures ok ==> files == old(files) - {p} && faults == old(faults)
      ensures !ok ==> files == old(files) && faults > old(faults) && !steady
    {
      var refused := Refuses();
      if refused {
        return false;
      }
      files := files - {p};
      return true;
    }

    /** Remove the job's workspace: its spool and the PDFs in it. */
    method RemoveWorkspace()
      modifies this`files
      ensures files == Outside(old(files))
    {
      files := map p | p in files && (IsKept(p) || p.FailedDirectory?) :: files[p];
    }

    /** Save a page's image under a name; a refused save leaves a cut file, or none. */
    method Save(p: Path, image: Image) returns (ok: bool)
      modifies this`files, this`faults
      ensures ok ==> files == old(files)[p := [image]] && faults == old(faults)
      ensures !ok ==> files == old(files)[p := []] && faults > old(faults) && !steady
    {
      files := files[p := []];
      var refused := Refuses();
      if refused {
        return false;
      }
      files := files[p := [image]];
      return true;
    }

    /** `Path.replace`: put the file under its name in one step, over any file there. */
    method Replace(source: Path, target: Path) returns (ok: bool)
      requires source in files && source != target
      modifies this`files, this`faults
      ensures ok ==> files == old(files)[target := old(files)[source]] - {source} && faults == old(faults)
      ensures !ok ==> files == old(files) && faults > old(faults) && !steady
    {
      var refused := Refuses();
      if refused {
        return false;
      }
      files := files[target := files[source]] - {source};
      return true;
    }

    /** Whether the spool is there as a directory: one that holds a file is. */
    method SpoolIsDirectory() returns (there: bool)
      ensures !there ==> SpoolPart(files) == map[]
    {
      there := *;
      if exists p | p in files :: p.SpoolFile? {
        return true;
      }
      assert SpoolPart(files).Keys == {};
    }

    /** Every file of the spool, sorted by name, or None when it cannot be read. */
    method ListSpool() returns (r: Option<seq<Entry>>)
      modifies this`faults
      ensures r.None? <==> faults > old(faults)
      ensures faults >= old(faults)
      ensures r.Some? ==> IsListing(files, r.value) && SortedByName(r.value)
    {
      var refused := Refuses();
      if refused {
        return None;
      }
      var left := set p | p in files && p.SpoolFile? :: p.entry;
      var listing: seq<Entry> := [];
      while left != {}
        invariant faults == old(faults) && SortedByName(listing)
        invariant forall e :: SpoolFile(e) in files <==> e in left || e in listing
        invariant forall e :: multiset(listing)[e] <= if e in left then 0 else 1
        decreases |left|
      {
        var e :| e in left;
        InsertHolds(listing, e);
        InsertSorts(listing, e);
        listing := InsertByName(listing, e);
        assert forall x :: x in listing <==> x in multiset(listing);
        left := left - {e};
      }
      CountedOnce(listing);
      return Some(listing);
    }

    /** Create a directory under `failed/`, or the ones above it. */
    method MakeDirectory() returns (ok: bool)
      modifies this`faults
      ensures ok <==> faults == old(faults)
      ensures faults >= old(faults)
    {
      var refused := Refuses();
      return !refused;
    }

    /**
     * `ensure_room_to_assemble` and then `assemble_pdf`: refused when the room cannot be
     * measured or is not there, when there is no page, when a page file is missing, or when
     * writing fails.
     */
    method AssemblePdf(paths: seq<Path>, dest: Path) returns (ok: bool)
      modifies this`files, this`faults
      ensures ok ==> paths != [] && forall p | p in paths :: p in old(files)
      ensures ok ==> files == old(files)[dest := Images(old(files), paths)] && faults == old(faults)
      ensures !ok ==> files == old(files) && faults >= old(faults)
      ensures !ok && faults == old(faults) ==> paths == [] || exists p | p in paths :: p !in files
    {
      var refused := Refuses();
      if refused || paths == [] || exists p | p in paths :: p !in files {
        return false;
      }
      files := files[dest := Images(files, paths)];
      return true;
    }

    /** `os.link`: refuses an existing destination, and some file systems cannot link at all. */
    method HardLink(source: Path, dest: Path) returns (r: Link)
      modifies this`files, this`faults
      ensures r.Linked? ==> source in old(files) && dest !in old(files)
      ensures r.Linked? ==> files == old(files)[dest := old(files)[source]]
      ensures r.Exists? ==> dest in files
      ensures !r.Linked? ==> files == old(files)
      ensures faults >= old(faults)
      ensures r.LinkRefused? ==> faults > old(faults) || source !in files
      ensures faults == old(faults) && !r.CopyInstead? && source in old(files) ==>
                if dest in old(files) then r.Exists? else r.Linked?
    {
      var refused := Refuses();
      var linkable: bool := *;
      if refused || source !in files {
        return LinkRefused;
      } else if dest in files {
        return Exists;
      } else if !linkable {
        return CopyInstead;
      }
      files := files[dest := files[source]];
      return Linked;
    }

    /**
     * `move_private`: a hard link and then the removal of the source, or a copy into a file
     * created exclusively.  A file at the destination is never replaced.  A failed copy is
     * removed, unless that fails too and leaves an empty or cut file; a source that cannot be
     * removed is left, which loses nothing.
     */
    method MovePrivate(source: Path, dest: Path) returns (r: Move)
      requires source != dest
      modifies this`files, this`faults
      ensures dest in old(files) ==> !r.Moved?
      ensures r.Moved? ==> source in old(files) && dest in files && files[dest] == old(files)[source]
      ensures r.Moved? ==> (
        || files == old(files)[dest := old(files)[source]] - {source}
        || (files == old(files)[dest := old(files)[source]] && faults > old(faults)))
      ensures r.Taken? ==> dest in files
      ensures r.Taken? ==> files == old(files)
      ensures r.Refused? ==> (
        || files == old(files)
        || (dest !in old(files) && files == old(files)[dest := []] && faults > old(faults)))
      ensures faults >= old(faults)
      ensures r.Refused? ==> faults > old(faults) || source !in old(files)
    {
      var link := HardLink(source, dest);
      match link
      case Exists =>
        return Taken;
      case LinkRefused =>
        return Refused;
      case Linked =>
        var _ := Unlink(source);
        return Moved;
      case CopyInstead =>
        var refused := Refuses();
        if dest in files {
          return Taken;
        } else if refused || source !in files {
          return Refused;
        }
        ghost var untouched := files;
        files := files[dest := []];
        refused := Refuses();
        if refused {
          // The part-written copy is removed before the error goes on.
          var removed := Unlink(dest);
          assert removed ==> files == untouched;
          return Refused;
        }
        files := files[dest := files[source]];
        var _ := Unlink(source);
        return Moved;
    }
  }
}
