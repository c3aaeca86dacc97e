/** The paperless-ngx client as a run uses it: one upload and one poll, each of which may fail. */
module Delivery {
  import opened Outcomes
  import opened Signals
  import opened FileSystem
  import PaperlessUpload
  import PaperlessPoll

  /** The PDFs that were accepted as this task. */
  ghost function OfTask(tasks: map<Path, nat>, task: nat): set<Path> {
    set pdf | pdf in tasks && tasks[pdf] == task
  }

  /** The documents made in a run, one after another, each of a PDF. */
  datatype Documents = NoDocument | Made(before: Documents, pdf: Path)

  ghost function Pdfs(documents: Documents): set<Path> {
    match documents
    case NoDocument => {}
    case Made(before, pdf) => Pdfs(before) + {pdf}
  }

  /** How many of the documents were made of a PDF that there was one of already. */
  ghost function Repeats(documents: Documents): nat {
    match documents
    case NoDocument => 0
    case Made(before, pdf) => Repeats(before) + if pdf in Pdfs(before) then 1 else 0
  }

  class PaperlessPort {
    const consumeDirectory: bool
    const sendBudget: nat
    const pollTimeout: nat
    /** The PDFs paperless-ngx has taken, each with its pages, whether or not anybody here was told so. */
    ghost var took: map<Path, seq<Image>>
    /** Every document made of a PDF, in paperless-ngx or in its consume folder. */
    ghost var made: Documents
    /** The task each PDF was accepted as, where somebody here was told. */
    ghost var tasks: map<Path, nat>
    /** The PDFs copied to the consume folder. */
    ghost var copied: set<Path>
    /** The PDFs whose task was found done. */
    ghost var confirmed: set<Path>

    constructor (consumeDirectory: bool, sendBudget: nat, pollTimeout: nat)
      ensures took == map[] && made == NoDocument && tasks == map[] && copied == {} && confirmed == {}
    {
      this.consumeDirectory, this.sendBudget, this.pollTimeout := consumeDirectory, sendBudget, pollTimeout;
      took, made, tasks, copied, confirmed := map[], NoDocument, map[], {}, {};
    }

    /** Each PDF taken was made into one document, and no other PDF into any. */
    ghost predicate OnceEach()
      reads this`took, this`made
    {
      Pdfs(made) == took.Keys && Repeats(made) == 0
    }

    /** An upload of this PDF ended like this: as a task, or as a copy. */
    ghost predicate Came(pdf: Path, upload: PaperlessUpload.Upload)
      reads this`tasks, this`copied
    {
      match upload
      case ApiDelivery(task) => pdf in tasks && tasks[pdf] == task
      case FolderDelivery => pdf in copied
    }

    /** It is filed: its task was found done, or it is in the consume folder. */
    ghost predicate Filed(pdf: Path, upload: PaperlessUpload.Upload)
      reads this`confirmed, this`copied
    {
      if upload.ApiDelivery? then pdf in confirmed else pdf in copied
    }

    /** Every PDF taken is filed, and each as a task that was found done exactly where that is claimed. */
    ghost predicate AllFiled(asTasks: bool)
      reads this`took, this`confirmed, this`copied
    {
      && took.Keys <= confirmed + copied
      && if asTasks then took.Keys <= confirmed else took.Keys * copied != {}
    }

    /**
     * `upload_document`, to an honest paperless-ngx: taken once, refused with nothing taken, or
     * sent without an answer that says which.  A signal can land at any moment of it, before or
     * after the PDF is taken.
     */
    method Upload(pdf: Path, ghost pages: seq<Image>, signal: Interruption) returns (r: Step<PaperlessUpload.Upload>)
      requires !signal.settled
      modifies this`took, this`made, this`tasks, this`copied, signal`received, signal`deferred
      ensures || (took == old(took) && made == old(made))
              || (took == old(took)[pdf := pages] && made == Made(old(made), pdf))
      ensures r.Value? ==> took == old(took)[pdf := pages] && made == Made(old(made), pdf)
      ensures r.Value? ==> Came(pdf, r.value)
      ensures tasks == old(tasks) || (r.Value? && r.value.ApiDelivery? && tasks == old(tasks)[pdf := r.value.task])
      ensures old(copied) <= copied <= old(copied) + {pdf}
      ensures r.Raised? ==> r.ending in {Interrupted, Failed(UploadFailed), Failed(UncertainSend)}
      ensures r == Raised(Failed(UploadFailed)) ==> took == old(took) && made == old(made)
    {
      if { case !signal.received => :- signal.Land(); case true => }
      var now: real := *;
      var world := new PaperlessUpload.World(now, true);
      // The version known is whatever the client learned before.
      var client := new PaperlessUpload.PaperlessClient(consumeDirectory, sendBudget as real);
      client.serverMax := *;
      var result, _, _, _ := client.UploadDocument(world);
      if world.stored + world.copies == 1 {
        took, made := took[pdf := pages], Made(made, pdf);
      }
      if world.copies == 1 {
        copied := copied + {pdf};
      }
      if { case !signal.received => :- signal.Land(); case true => }
      match result
      case Uploaded(how) =>
        if how.ApiDelivery? {
          tasks := tasks[pdf := how.task];
        }
        r := Value(how);
      case Raises(error) => r := Raised(Failed(if error.UncertainSendError? then UncertainSend else UploadFailed));
    }

    /** `_poll`: returning means that the task is done, or that there was none to wait for. */
    method Poll(upload: PaperlessUpload.Upload, signal: Interruption) returns (r: Step<()>)
      requires !signal.settled
      modifies this`confirmed, signal`received, signal`deferred
      ensures r.Value? && upload.ApiDelivery? ==> confirmed == old(confirmed) + OfTask(tasks, upload.task)
      ensures r.Raised? || upload.FolderDelivery? ==> confirmed == old(confirmed)
      ensures upload.FolderDelivery? ==> r.Value?
      ensures r.Raised? ==> r.ending in {Interrupted, Failed(Unconfirmed)}
    {
      if upload.FolderDelivery? {
        return Value(());
      }
      if { case !signal.received => :- signal.Land(); case true => }
      var now: real := *;
      var server := new PaperlessPoll.TaskServer(now);
      var result, _, last := PaperlessPoll.PollTask(server, upload.task, pollTimeout as real);
      if result.Confirmed? {
        // What the last poll found done is the task it was asked about.
        confirmed := confirmed + OfTask(tasks, last.task);
        return Value(());
      }
      return Raised(Failed(Unconfirmed));
    }
  }
}
