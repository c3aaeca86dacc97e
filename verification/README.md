# Verification of saneless' delivery promise

saneless scans paper and hands it to paperless-ngx. Its promise is that a scanned sheet is either
delivered once or kept. These files model the parts of the program that carry the promise and
prove what each of them has to do for it to hold.

`dafny verify dfyconfig.toml` checks the whole project with Dafny 4.11.

## How the parts fit

* **The run and its guard.** `Pipeline.dfy` is the run, with the pass-by-pass document
  (`MultiPage.dfy`), the ledger of passes (`Ledger.dfy`), the page sink (`Spool.dfy`), the scanner's
  contract (`Scanner.dfy`), the operator's prompts (`Operators.dfy`) and the preservation
  (`Preservation.dfy`) over an abstract file system that may refuse any call (`FileSystem.dfy`).
  `Recovery.dfy` says what each stage must have for the guard to lose nothing. A ghost
  history (`PageHistory`) outlives the run: it holds every page recorded, which only `AddSheet`
  adds to, every pass thrown away and why, which only `Discard` and the undoing of an accept add
  to, every failure, which is noted where the scan ends, and every batch. What the run owes is what was recorded without the passes
  thrown away; the run refers to exactly those pages and has the whole file of each at every step
  where a signal can land. What it delivers follows a `Plan`, which says what becomes of each.
* **The client.** `PaperlessHttp.dfy`, `PaperlessUpload.dfy`, `PaperlessPoll.dfy` and
  `PaperlessFetch.dfy` run the client's loops against a server and a clock that may do anything
  their contracts allow, and that log what they were asked. `Delivery.dfy` is the port of a run to
  them; its ghost fields list every document made, and say of each PDF how it came and whether its
  task was found done.
* **Durable moves.** `Durable.dfy` records every state of a volume and lets a crash happen in each;
  `DurableCopy.dfy` does so for a move between two volumes.
* **The job store.** `JobTable.dfy` defines the statements' rows, filters, orders and limits;
  `JobStore.dfy` the operations.
* **Profiles.** `Profiles.dfy` generates and reloads, `Merge.dfy` merges into the file,
  `Startup.dfy` compares memory with a restart.
* **Duplex and the answer slot.** `Duplex.dfy`, `Stack.dfy`, which ties a run's uploads to the stack
  of sheets, and `AnswerSlot.dfy`.

Failures are values (`Step` in `Outcomes.dfy`), and `*` stands for whatever the device, the
operator, the disk, the server or the clock does. Refused calls are counted in the ghost field
`faults`, so that a contract can also say what happens when nothing is refused.

## Where a signal can land

A signal is delivered once at most, as the handler ignores both signals before it does anything
else. In the model it can land between any two statements of an acquisition and of a delivery, and
inside every call that takes the signal flag. In an exception handler it can land only at a call,
so the record `_upload` makes in its own handlers (src/saneless/pipeline.py:2421-2426) is one step
with the catch that precedes it. Loops over an operator's answers run as long as the coordinator's
finite `patience`, which may be any number, and then are told that saneless is stopping.

## Findings

* `SpooledPageSink.add` promises that an interruption goes on once the page is recorded. When the
  second attempt fails, its failure replaces the interruption: nothing is recorded and the signal
  is not raised again. `Add` gives the exact condition where nothing is refused: the mode can be
  stored and there is room. A page refused for its mode comes back to a multi-page run's operator
  as a scanner fault, with both signals ignored from there on: `FeedUnstorable`, and `ScanPass`
  for every retryable failure.
* During a delivery the guard moves the PDFs it finds. If one of two has vanished, the pages of the
  vanished one are not covered, although they may still be in the spool: `DeliveryCovers` gives the
  exact condition, and `PreserveDeliveryAndClear` shows that they are gone once the workspace is.
* Writing profiles twice is idempotent except for the device pin: an empty device id is pinned
  again on every run. `WriteTwice` gives the exact condition.
* Spool names do not always sort into document order. Two passes sort right exactly when the
  earlier one's number, padded to five digits, is at most the later one's cut to as many digits
  (`NameOrder`), which holds up to 99999 passes; `NameOrderPastPadding` names the first two that
  sort wrongly, and two after them that sort right again.
* The unread sheets of pass B are counted in the statement after the one that scans it. A signal
  that lands between the two leaves them out, so that the guard may say by page numbers which backs
  belong to which fronts although a sheet was lost: `LateSignalNamesPages`. With any ending
  but an interruption they are counted (`ScanManualDuplex`), and no page number is named.
* With a client shared by threads an "incompatible" error need not mean that version 9 was refused:
  `SharedClientCanAskTheNewestTwice`.
* `update_state` trims nothing, so a refusal recorded through it can pass the cap:
  `RefusingAddsOne`.
* The page files are never synced (src/saneless/spool.py:19), so moving one into `failed/` cannot
  make it safe: `MovePrivate` keeps a whole copy over every crash exactly when there was one before,
  `SafeExactlyWhenSynced` says when that is, and `UnsyncedCanBeLost` names a case. A copy to another
  file system syncs the new file and not its directory: once the source is removed, a crash can
  lose both (`MoveAcross` gives the exact condition), and `SyncedDirectoryKeeps` is what it lacks.

## Model

| member | source | states |
|---|---|---|
| Signals.Interruption.Handle | src/saneless/cli.py:336-355 | the first signal is recorded and raised, or once the outcome is settled only recorded and deferred |
| Signals.Interruption.Boundary | src/saneless/cli.py:336-355 | no point raises once a signal has arrived or the outcome is settled |
| Signals.Interruption.SettleAbsorbing | src/saneless/pipeline.py:1346-1366 | wherever a signal lands meanwhile the run ends up settled, so nothing after it can raise |
| Pipeline.RunPipeline | src/saneless/pipeline.py:2741-2761 | over every page that was recorded and not thrown away: a run that returns has delivered it, in order, but for the pages its plan leaves out, its result counts them, and each PDF is in the consume folder or its task was found done; any other that nobody cancelled leaves it on disk, under failed/ or in a workspace that stays; a run is cancelled exactly where the operator's own abort was the last choice heard, or ended the flip wait of a manual duplex run; the passes of a multi-page plan stand in the order scanned and are those that the choices heard leave standing, each Re-scan having thrown one pass away; however it ends at most one document was made of each PDF, and each PDF taken has its caution; a guard that knows of an unread sheet names no page numbers to pair by; nothing that was in failed/ is lost; and a pass is only thrown away because the operator asked for it or because its scan failed retryably while a page was kept, never one that the scanner returned pages for |
| Pipeline.PipelineRun.Execute | src/saneless/pipeline.py:1264-1344 | with a signal at any step: a delivered run returns its own result, with each PDF filed, any other ends as raised, and it is cancelled exactly where an abort of the operator's own ended the acquisition; at most one document is made of each PDF, and what is on record as accepted was; preservation runs exactly once unless cancelled, with the run settled; every page recorded, not thrown away and not left out by the delivery under way is then in failed/ or in a kept spool; each PDF on record has exactly one caution; every group reported is really there, and without a problem they are exactly the most finished artefact; the pairing caution is the one that the passes and the unread sheets counted call for; what is owed is exactly what the run had, at every stage |
| Pipeline.PipelineRun.Guard | src/saneless/pipeline.py:1306-1344 | the run is settled whatever signal lands; then it preserves once, or not at all after a cancel, which leaves the disk as it was |
| Pipeline.PipelineRun.Preserve | src/saneless/pipeline.py:1316-1344 | the guard finds all that is due in the most finished artefact and keeps or leaves each page; each PDF on record has exactly one caution, which names its own kept copy or its pages; what it reports is true, and whole where there is no problem; the pairing caution is the one the passes in flight and the unread sheets counted call for |
| Pipeline.PipelineRun.Run | src/saneless/pipeline.py:1404-1440 | a run that returns is settled and paperless-ngx has exactly the PDFs of its plan, one document of each, filed, with the images of the pages owed in order; one that raises is one the guard can save, and while it is delivering it leaves out exactly what its plan does; it is cancelled, only while acquiring, exactly where an abort of the operator's own was heard |
| Pipeline.PipelineRun.PlanIsFaithful | src/saneless/pipeline.py:1404-1440 | the plan of an acquisition covers each page owed once, and leaves out exactly the pages that look blank, or of each pass of a multi-page document those or none |
| Pipeline.PipelineRun.Acquire | src/saneless/pipeline.py:1404-1440 | however it ends, every page recorded and not thrown away is in the document or in flight with its whole file; what it returns is made of what the scanner returned, as the request asked and as the choices heard leave it; only a multi-page run can throw a pass away; it is cancelled exactly where an abort was heard at a prompt that offers it, or at the flip wait of a manual duplex run |
| Pipeline.PipelineRun.SetDelivered | src/saneless/pipeline.py:1368-1381 | the run is settled before the stage says DELIVERED, whatever signal lands |
| Recovery.RecoverableIsMostFinished | src/saneless/pipeline.py:1284-1344 | at every stage before DELIVERED, each page due still is part of what the guard takes for the most finished artefact |
| Recovery.PreservedMeans | src/saneless/pipeline.py:1322-1342 | after the preservation each page due is in failed/ or still spooled with the workspace kept |
| Pipeline.PipelineRun.ScanMultiPage | src/saneless/pipeline.py:1706-1785 | over every answer sequence, however it ends: every page recorded and not thrown away is in the document or in flight, and no pass is thrown away without cause; it is cancelled exactly where the last choice was an abort of the operator's own; the document is what its turns make of exactly the choices heard, a Re-scan undoing the accept right before it, and as many passes were thrown away for a Re-scan as were asked for; it is made of batches the scanner returned, holds under MAX_DOCUMENT_PAGES + MAX_PAGES_PER_PASS pages, has a page, and carries no warning exactly when Finish was pressed, which needs a kept page |
| Pipeline.PipelineRun.OneTurn | src/saneless/pipeline.py:1746-1785 | one turn of the loop: the document is what this turn makes of it, the accepted pass added, or taken back again where Re-scan was chosen, and the choice heard is the turn's |
| Pipeline.PipelineRun.RescanLast | src/saneless/pipeline.py:1757-1758 | the document is what it was before its last accept, and each Re-scan asked for has then thrown its pass away |
| Pipeline.PipelineRun.PassAndAnswer | src/saneless/pipeline.py:1746-1785 | Scan next, Re-scan and Finish are only heard below the document cap, and Finish only while a page is kept; Re-scan only right after an accepted pass; it is cancelled exactly where an abort of the operator's own was heard, so no failure becomes one and no abort becomes a failure |
| Pipeline.PipelineRun.AfterPass | src/saneless/pipeline.py:1787-1847 | a finished document is warned; a prompt comes only below the page cap, always offers ABORT and never a blank-page answer |
| Pipeline.PipelineRun.AfterDecision | src/saneless/pipeline.py:1824-1847 | exactly which prompt follows a failed or an accepted pass, when the document ends, and the warning it ends with |
| Pipeline.PipelineRun.NextPassPrompt | src/saneless/pipeline.py:2156-2177 | the prompt counts the pages that finishing would upload, and Finish is on it exactly when there is one |
| Pipeline.PipelineRun.Ask | src/saneless/pipeline.py:2179-2219 | each answer heard means exactly one ending: an offered abort cancels, unless the prompt broke, which fails; stopping interrupts; an answer off the menu is refused; any other comes back, and so does the clock running out; with no answer heard only an interruption ends it |
| Pipeline.PipelineRun.ScanPass | src/saneless/pipeline.py:1849-1915 | a pass is left undecided with its pages owed; or its scan failed retryably while a page was kept, it is thrown away and comes back to the operator, even where a signal had landed by then; any other failure is raised with nothing thrown away; a pass that the scanner returned pages for is never a failed one |
| Pipeline.PipelineRun.ConcludePass | src/saneless/pipeline.py:1889-1915 | a batch leaves the pass undecided, and only a failure of its scan on record makes it a failed one |
| Pipeline.PipelineRun.FailPass | src/saneless/pipeline.py:1893-1912 | exactly which failures throw the pass away and ask the operator; a signal that had landed before does not stop that |
| Pipeline.PipelineRun.FeedUnstorable | src/saneless/pipeline.py:1889-1912 | a signal that lands while a sheet of an unstorable mode is added is swallowed: the pass comes back to the operator as a scanner fault, with nothing recorded |
| Pipeline.PipelineRun.SettleBlanks | src/saneless/pipeline.py:1937-2025 | the pass joins the document with its blank pages skipped or kept as answered, or goes without trace; a page is skipped only if it looks blank |
| Pipeline.PipelineRun.AskAboutBlanks | src/saneless/pipeline.py:1970-1983 | one question a pass, and only when a page looks blank; it cannot end in a cancel |
| Pipeline.PipelineRun.AcceptPass | src/saneless/pipeline.py:2048-2097 | wherever a signal lands, every referenced page has its file and no page is unreferenced; afterwards document, artefacts and ledger agree again |
| Pipeline.PipelineRun.HandOver | src/saneless/pipeline.py:2084-2087 | the pages of a pass stay referenced by the ledger or the document at every step between the two |
| Pipeline.PipelineRun.DiscardLastPass | src/saneless/pipeline.py:2099-2127 | wherever a signal lands, no kept document refers to a deleted page; afterwards exactly the last accept is undone, and only that pass is thrown away |
| Pipeline.PipelineRun.UndoLastPass | src/saneless/pipeline.py:2112-2120 | wherever a signal lands, the last accept is undone or the guard still keeps the pass; the pass thrown away is that one, as a whole |
| Pipeline.PipelineRun.GiveUp | src/saneless/pipeline.py:2119-2120 | the guard stops keeping the pass in the same step that it stops being owed, before a file goes |
| Pipeline.PipelineRun.ThrowAway | src/saneless/pipeline.py:1897-1900 | a pass never accepted leaves the document and a calm spool exactly as they were |
| Pipeline.PipelineRun.SpoolIsTheDocument | src/saneless/pipeline.py:1717-1719 | between passes of a run nothing was refused to, the spool read in name order is the document, page for page, exactly when the names of every two of its files keep the order, as up to 99999 passes they do |
| MultiPage.MultiPageDocument.Take | src/saneless/pipeline.py:2070-2085 | the document's lists are those of its standing passes and the new one |
| MultiPage.MultiPageDocument.TakeBack | src/saneless/pipeline.py:2112-2118 | Re-scan leaves exactly what the passes before the last one make |
| MultiPage.MultiPageDocument.Totals | src/saneless/pipeline.py:906-909 | removed positions ascend within the document, and kept is the sum of the passes' kept, never negative |
| MultiPage.TakingBackBinds | src/saneless/pipeline.py:2112-2118 | cutting the last pass's records and the positions past them undoes its accept |
| MultiPage.BoundSkipsFit | src/saneless/pipeline.py:2072-2072 | the removed positions of any standing passes strictly increase within 1..len(records) |
| MultiPage.KeptTotals | src/saneless/pipeline.py:906-909 | kept equals the passes' kept pages added up |
| MultiPage.KeptIsBound | src/saneless/pipeline.py:2345-2350 | what is uploaded is, in scan order, each standing pass's pages not skipped when it was asked about |
| MultiPage.LastFilesApart | src/saneless/pipeline.py:927-935 | no thrown-away pass shares a file with a standing one, as numbers are never reused |
| MultiPage.DocumentIsInOrder | src/saneless/pipeline.py:1717-1719 | a document's files are in pass and page order, and fit their padding up to 99999 passes |
| Ledger.SpoolLedger.Discard | src/saneless/pipeline.py:714-728 | wherever a signal lands, every page still owed has its file and is referenced; the pass is thrown away as a whole, before its files go, and nothing outside the spool changes |
| Ledger.ThrowingForgets | src/saneless/pipeline.py:714-728 | throwing a pass away stops owing its pages and no other |
| Ledger.UnlinkPages | src/saneless/pipeline.py:643-664 | only the thrown-away pass's files go, a refused removal does not stop the rest, and every owed page stays |
| Ledger.FilesWithout | src/saneless/pipeline.py:700-712 | forgetting a pass takes exactly its own files out of what is tracked |
| Spool.SpooledPageSink.Add | src/saneless/spool.py:154-231 | for every interrupt point the sheet is recorded exactly once, numbered count + 1, whole on disk, before the interruption goes on; where the system refuses nothing an interruption that lands goes on exactly when the mode can be stored and there is room; an unstorable mode is always the scanner's fault and changes nothing; a final name exists only whole |
| Spool.SpooledPageSink.SpoolAndRecord | src/saneless/spool.py:197-200 | the record is made only once the page is whole on disk |
| Spool.SpooledPageSink.Spool | src/saneless/spool.py:233-258 | nothing but the page's own two names changes, and a refused mode changes nothing |
| Spool.SpooledPageSink.Write | src/saneless/spool.py:297-326 | the final name appears only with the whole page |
| Scanner.AddSheet | src/saneless/spool.py:197-205 | a page is recorded under a name never recorded before and owed from that moment, and no other owed page is touched; a scanner fault exactly for an unstorable mode |
| Scanner.ScanPages | src/saneless/scanner/base.py:53-55 | a batch is exactly the sink's records, at most MAX_PAGES_PER_PASS, and what it returns is on record; a pass that fails at the scanner leaves no stray file; a batch or a jam means no signal landed |
| SpoolNames.NameOrder | src/saneless/pipeline.py:1881-1881 | of two files the earlier sorts first exactly when its number (of its pass, or within one pass of its page), padded, is at most the later one's cut to as many digits |
| SpoolNames.NameOrderPastPadding | src/saneless/pipeline.py:1881-1881 | an input past the padding where the order breaks, pass 100000 before pass 99999, and one where it holds, pass 100000 before pass 100001 |
| SpoolNames.SortedSpoolIsDocument | src/saneless/pipeline.py:1717-1719 | a spool of exactly a document's files, sorted by name, is the document in order exactly when the names of every two of its files keep the order |
| Pipeline.PipelineRun.Upload | src/saneless/pipeline.py:2399-2427 | one document at most is made of the PDF; a record made in the attempt stays as it was made, only an interruption without one is recorded as may have arrived, and what is recorded as accepted was; a refused PDF is not on record, and an earlier record is never changed |
| Pipeline.PipelineRun.SendAndRecord | src/saneless/pipeline.py:2410-2420 | a PDF is on record as accepted as a task only if its task is known, and as saved only if its copy was made; the tasks of other PDFs stay |
| Pipeline.PipelineRun.EnterFiltering | src/saneless/pipeline.py:2269-2273 | from the stage change on the guard keeps the whole unfiltered document |
| Pipeline.PipelineRun.DropBlankPages | src/saneless/pipeline.py:754-796 | refused exactly when detection is on and every page is blank; otherwise positions and kept pages match the filter |
| Pipeline.PipelineRun.Assemble | src/saneless/pipeline.py:2376-2397 | the PDF holds the owed images of these pages in order, and any failure leaves the page files to the guard |
| Pipeline.PipelineRun.BeginDelivery | src/saneless/pipeline.py:2474-2476 | PDFs are recorded before the stage that makes the guard keep them, and what they leave out is fixed with it; every page stays owed |
| Pipeline.PipelineRun.FileDocument | src/saneless/pipeline.py:2477-2486 | the PDF is uploaded once and its task found done, or it is a copy; a success exactly when it came as a task |
| Pipeline.PipelineRun.DeliverDocument | src/saneless/pipeline.py:2460-2486 | delivered and settled, one document made of exactly this PDF and its task found done or its copy made, or raised, never as a cancel, with everything still recoverable, what is left out unchanged, and every taken PDF on record |
| Pipeline.PipelineRun.FinishDocument | src/saneless/pipeline.py:2251-2310 | the PDF, of which one document is made and filed, is the batch without exactly its blank pages, and so is what a raised delivery leaves due; scanned = removed + uploaded, positions ascending and in range |
| Pipeline.PipelineRun.FinishMultiPage | src/saneless/pipeline.py:2312-2374 | the PDF, of which one document is made and filed, is the standing passes' kept pages, and so is what a raised delivery leaves due; a document with no kept page is never delivered |
| Pipeline.PipelineRun.FinishMismatch | src/saneless/pipeline.py:2534-2619 | fronts in order and backs in sheet order as two PDFs, nothing removed, one document made of each and both filed, or raised with every page due and recoverable |
| Pipeline.PipelineRun.FinishHalves | src/saneless/pipeline.py:2574-2588 | both halves are filed, each as its upload came, with one document made of the backs; once the fronts are taken any failure is raised as unconfirmed, and an interruption stays one |
| Pipeline.PipelineRun.FileHalves | src/saneless/pipeline.py:2560-2619 | both halves are uploaded once and filed; a success exactly when both came as tasks |
| Recovery.AssembledHolds | src/saneless/pipeline.py:2384-2397 | an assembled PDF holds exactly the images its pages were recorded with |
| Pipeline.PipelineRun.ScanSimplex | src/saneless/pipeline.py:1511-1529 | the batch is the one the scanner returned, with every page owed; however it ends nothing recorded is thrown away |
| Pipeline.PipelineRun.ScanManualDuplex | src/saneless/pipeline.py:1531-1703 | a capped fronts pass, two halves, or an interleaved document, exactly as counts, rejections and cap decide, of the very batches returned for pass A and pass B; pass B only after a press; cancelled exactly where the operator aborted the flip wait; the unread sheets of each pass returned are counted for the guard, unless a signal lands before the last one's are; however it ends every page stays owed |
| Pipeline.LateSignalNamesPages | src/saneless/pipeline.py:1654-1657 | the case in which a guard names page numbers although a sheet was lost: a signal between the end of pass B and the count of its unread sheets |
| Pipeline.PipelineRun.AwaitFlip | src/saneless/pipeline.py:1603-1645 | what the coordinator's wait ended with means exactly one ending: only a press continues, only an abort that was not a broken prompt cancels |
| Pipeline.InterleavedFiles | src/saneless/duplex.py:164-197 | interleaving loses and adds no page file |
| Duplex.InterleaveDuplex | src/saneless/duplex.py:164-197 | refused exactly when the counts differ, else front 1, back 1, front 2, ... with the backs reversed |
| Duplex.InterleavedAt | src/saneless/duplex.py:164-197 | page 2i is front i and page 2i+1 the i-th back from the end |
| Duplex.DeInterleave | src/saneless/duplex.py:164-197 | taking the document apart gives both passes back |
| Duplex.PairingNeedsTheSameSheets | src/saneless/pipeline.py:1679-1688 | with equal counts every front meets its own back exactly when both passes lost the same sheets |
| Duplex.UnsplitIsTheDocument | src/saneless/pipeline.py:1675-1703 | an unsplit run by a scanner that reports lost sheets is every side of the stack in order |
| Stack.DuplexDeliversTheStack | src/saneless/pipeline.py:1675-1703 | for the plan of a manual duplex run whose scanner reports the sheets it loses: the one PDF uploaded is the stack in reading order but for the pages the filter removes, exactly when no sheet was lost, pass B reached each and stopped at no cap; otherwise the two PDFs are what each pass saw, in the order of the sheets |
| Duplex.EqualCountsCanPairWrongly | src/saneless/pipeline.py:1680-1683 | with one lost sheet on each pass equal counts pair every side wrongly |
| Duplex.StoppedBacksStartWhereSaid | src/saneless/preservation.py:794-819 | page j of a stopped pass B's reversed PDF is the back of sheet fronts - backs + j |
| Preservation.PreserveMostFinished | src/saneless/preservation.py:858-913 | whatever is refused: nothing in failed/ is replaced, no spooled page is lost, every image of the most finished artefact is in failed/ or still spooled with a problem reported, every group reported is true; without a problem exactly the most finished kind is kept, and with nothing refused or in the way there is none; outside a delivery the cautions are exactly how the passes pair, once all of them are kept |
| Preservation.KeepAsPdfs | src/saneless/preservation.py:896-908 | which artefact is kept as PDFs at each stage, and that none is moved before it is whole in failed/ |
| Preservation.KeepFile | src/saneless/preservation.py:605-627 | the PDF lands under the first free numbered name, or nothing is lost |
| Preservation.KeepEach | src/saneless/preservation.py:677-690 | the PDFs move one by one, each with its caution, until one cannot |
| Preservation.KeepAssembled | src/saneless/preservation.py:662-704 | the kept PDFs are a prefix, counted, and the cautions are those of every taken PDF found |
| Preservation.KeepDocument | src/saneless/preservation.py:707-730 | the unfiltered document becomes one PDF in failed/, or a problem |
| Preservation.KeepDocumentAndPassesInFlight | src/saneless/preservation.py:733-746 | document and passes are both attempted, and complete only together |
| Preservation.KeepPasses | src/saneless/preservation.py:749-791 | each non-empty pass becomes its own PDF, backs in sheet order, counted truthfully, with the pairing caution only when complete |
| Preservation.BuildAndKeep | src/saneless/preservation.py:575-645 | a PDF holds these pages in order and is kept, or leaves the spool and the delivery untouched |
| Preservation.MovePageFiles | src/saneless/preservation.py:257-290 | every spooled file is moved or left, whole, and the moved ones are named |
| Preservation.KeepPageFiles | src/saneless/preservation.py:822-855 | the count of page files kept is true even when a move fails part way, and a spool that is no directory is no problem |
| Preservation.OneCautionEach | src/saneless/preservation.py:674-704 | each PDF on disk that was or may have been taken has exactly one caution, and no other PDF has any |
| Preservation.DeliveryCovers | src/saneless/preservation.py:896-900 | where each page is in one PDF of the delivery, the guard covers every page exactly when no PDF has vanished |
| Preservation.PreserveDeliveryAndClear | src/saneless/pipeline.py:1316-1344 | after a preservation without a problem and the removal of the workspace, every page of a delivery is in failed/ exactly when each of its PDFs was still there; of a vanished one no page is left anywhere |
| FileSystem.Disk.MovePrivate | src/saneless/preservation.py:144-210 | a move never replaces a file and never loses its source's content |
| FileSystem.Disk.ListSpool | src/saneless/preservation.py:276-284 | the spool's files, each once, in name order |
| Pages.FilterBlankPages | src/saneless/pages.py:230-287 | a position is removed exactly when its page is blank; kept pages keep their order, and the counts add up |
| Pages.KeptCounts | src/saneless/pages.py:263-287 | kept and removed add up to the document |
| PaperlessUpload.PaperlessClient.UploadDocument | src/saneless/paperless.py:1029-1137 | over the world's own log: every attempt but the last ended BEFORE_SEND and has its backoff after it, none begins after the deadline, and how the last ends decides the result; incompatible only when its last request asked for version 9 and got 406; at most one document across paperless-ngx and its consume folder, and a copy only when every attempt ended BEFORE_SEND |
| PaperlessUpload.PaperlessClient.PostDocument | src/saneless/paperless.py:1164-1207 | one request, or two exactly when the first got 406 to version 10, and then one for version 9; at most one document, and the last answer is how the attempt ends |
| PaperlessUpload.PaperlessClient.SendDocument | src/saneless/paperless.py:1209-1234 | each request names the version known and learns from its answer |
| PaperlessUpload.AttemptsBound | src/saneless/paperless.py:1080-1102 | of the attempts in a log, at most 15 under the default 60 s and one without a budget, each of at most two requests |
| PaperlessUpload.DefaultBudgetWaits | src/saneless/paperless.py:1101-1102 | the waits before a fifteenth attempt use up the default budget |
| PaperlessUpload.LateWaits | src/saneless/paperless.py:1101-1102 | from the fourth attempt on each wait is the longest one |
| PaperlessHttp.NewestIsAskedWhileLastAnnounced | src/saneless/paperless.py:994-1012 | over any answers, version 10 is asked for exactly while the last word on it was an announcement and not a 406 |
| PaperlessHttp.SharedClientCanAskTheNewestTwice | src/saneless/paperless.py:1187-1190 | with another thread's answer in between, the second request can ask for version 10 again |
| PaperlessPoll.PollTask | src/saneless/paperless.py:1437-1522 | over the server's own log: every poll but the last decided nothing and has its wait after it, doubling and cut at the deadline; the last answer decides; a timeout comes at the deadline or later and names an error exactly when the last poll may have cleared |
| PaperlessPoll.PolledByTheDeadline | src/saneless/paperless.py:1503-1522 | no poll but the first is sent after the deadline |
| Delivery.PaperlessPort.Upload | src/saneless/paperless.py:1029-1137 | to an honest paperless-ngx one call makes at most one document of its PDF; an upload that returns was taken, as a task or as a copy, a plain failure stored nothing, and only an uncertain one or an interruption leaves it open |
| Delivery.PaperlessPort.Poll | src/saneless/pipeline.py:2429-2458 | returning means that the task of this upload was found done, or that it was a copy with no task; anything else confirms nothing |
| PaperlessFetch.FetchCollection | src/saneless/paperless.py:1812-1874 | any server: at most 1000 pages, and only their items in order; an honest one: exactly all its items when they fit in 1000 pages, and a refusal when not |
| PaperlessFetch.HonestFetch | src/saneless/paperless.py:1839-1874 | from any page on, an honest server's fetch ends with all its items or at the page limit |
| Durable.ReplaceFileAtomically | src/saneless/atomic_write.py:461-608 | whatever was on its way to the disk: in every state on the way and after a crash in any, the target is whole and old or new; once the directory is synced, only the new |
| Durable.DeliverToConsumeFolder | src/saneless/paperless.py:1385-1435 | at no moment and after no crash is part of the PDF under its final name, and the same holds for every other name watched |
| Durable.DeliverAll | src/saneless/paperless.py:1385-1435 | so for any number of deliveries into one folder whose directory is never synced |
| Durable.ReplaceWhole | src/saneless/atomic_write.py:575-606 | the shared temporary-file protocol, from any state in which the names watched are safe; a failure leaves the old content |
| Durable.MovePrivate | src/saneless/preservation.py:144-210 | an existing destination is untouched and at every moment one of the two names has the content; a whole copy survives every crash exactly when it did before the call; the destination is whole in the directory exactly when it was copied or the source was synced; out of order, the removal alone would lose both |
| Durable.KeepsACopyMeans | src/saneless/preservation.py:144-210 | the check over directories is, both ways, one over everything a crash can leave |
| Durable.SafeExactlyWhenSynced | src/saneless/spool.py:19-20 | with nothing on its way to the disk, a whole copy survives every crash exactly when the source was synced |
| Durable.UnsyncedCanBeLost | src/saneless/spool.py:19-20 | a page file, linked and removed, can come back from a crash as anything under its new name |
| DurableCopy.MoveAcross | src/saneless/preservation.py:144-210 | between two file systems: an existing destination is untouched and the source goes only once the copy is whole; a whole copy survives every crash exactly when it did before and nothing was moved or the removal of the source was refused, so no move that removes its source survives every crash |
| DurableCopy.SyncedDirectoryKeeps | src/saneless/preservation.py:179-190 | syncing the directory of the copy, which the program does not do, makes it survive every crash |
| DurableCopy.OneAloneKeeps | src/saneless/preservation.py:144-210 | as neither file system waits for the other, content survives every crash exactly when one of its two names alone does |
| DurableCopy.EitherKeepsMeans | src/saneless/preservation.py:144-210 | the check over both directories is, both ways, one over everything a crash can leave on either |
| Durable.CrashSafeMeans | src/saneless/atomic_write.py:575-608 | the check over directories is one over everything a crash can leave |
| JobStore.PruneSurvivors | src/saneless/job.py:236-262 | a row survives a prune exactly when it is not past the cutoff and is among the newest maxRows runs by time or the newest 20 refusals by insertion |
| JobStore.PartitionsApart | src/saneless/job.py:236-262 | pruning judges runs as if there were no refusals, and refusals as if there were no runs |
| JobStore.JobStore.Prune | src/saneless/job.py:1468-1515 | the caps hold afterwards and the count returned is the rows gone |
| JobStore.JobStore.CreateJob | src/saneless/job.py:987-1050 | one more pending run, nothing else changed |
| JobStore.JobStore.CreateRejectedJob | src/saneless/job.py:1053-1116 | the new refusal survives its own trim whatever its timestamp, at most 20 stay, and no run is touched |
| JobStore.TrimSurvivors | src/saneless/job.py:227-233 | a trim keeps every run and the refusals fewer than 20 others were written after |
| JobStore.TrimCaps | src/saneless/job.py:227-233 | at most 20 refusals are left |
| JobStore.JobStore.FinishJob | src/saneless/job.py:1165-1219 | one update, and at most 20 refusals even when the job ends refused |
| JobStore.JobStore.UpdateState | src/saneless/job.py:1135-1162 | the cap holds unless the new category is REJECTED |
| JobStore.RefusingAddsOne | src/saneless/job.py:1135-1162 | through update_state each run turned into a refusal adds one to them, so the cap can be passed |
| JobStore.JobStore.LatestRunJob | src/saneless/job.py:1330-1361 | the newest run not excluded, none newer, although only one row more than the exclusions is read |
| JobStore.LimitIsEnough | src/saneless/job.py:1354-1360 | the limited read finds what the unlimited one would |
| JobStore.JobStore.QueuePosition | src/saneless/job.py:1300-1328 | the number of older pending jobs other than the running one, or None exactly when the job is not waiting |
| JobStore.JobStore.FailActiveJobs | src/saneless/job.py:1386-1424 | each active row moves once, an uploading one with its own text and category; the count is the active rows |
| JobStore.JobStore.FailRecoveredJobs | src/saneless/job.py:1426-1466 | exactly the named active rows move, each with its own sentence |
| JobStore.JobStore.RecoverAfterRestart | src/saneless/job.py:1386-1466 | together each active row moves exactly once, none is left active, and no finished row changes |
| JobTable.NewestIsRank | src/saneless/job.py:203-225 | ORDER BY ... DESC LIMIT n selects exactly the rows with fewer than n newer ones |
| Profiles.ClaimSlug | src/saneless/auto_profiles.py:253-286 | always finds a name, the first candidate nobody claimed |
| Profiles.CandidatesDiffer | src/saneless/auto_profiles.py:268-274 | two numbered candidates of a slug are never alike |
| Profiles.SlugsAreWellFormed | src/saneless/auto_profiles.py:82-112 | a slug is letters, digits and single inner hyphens, never empty |
| Profiles.GenerateProfiles | src/saneless/auto_profiles.py:474-574 | every source gets one profile under its own name, none called default, default is its source's profile, and no other name exists |
| Profiles.DefaultIsFlatbed | src/saneless/auto_profiles.py:519-525 | the default is the first flatbed when there is one |
| Profiles.GeneratedLabelsDiffer | src/saneless/auto_profiles.py:534-556 | no two sources of a device share a label |
| Profiles.LegacySourcesAreDuplex | src/saneless/auto_profiles.py:775-779 | a source the loader reads as manual duplex is one the generator calls duplex |
| Profiles.GeneratedReloads | src/saneless/config.py:759-773 | every generated profile survives omit-defaults, write and reload, legacy translation included |
| Merge.WriteProfiles | src/saneless/auto_profiles.py:1012-1149 | refused exactly on a section that is no table; otherwise orphans pruned, each name merged and grouped by its outcome, the device pinned only where unset |
| Merge.MergeProfile | src/saneless/auto_profiles.py:910-965 | a name's outcome and its entry afterwards, from the entry before |
| Merge.GroupHolds | src/saneless/auto_profiles.py:1110-1121 | every generated name is in the group of its outcome and in no other |
| Merge.MergeFrames | src/saneless/auto_profiles.py:1012-1068 | no unflagged table, no ungenerated name and no operator's key changes; default is never removed |
| Merge.PersistedMatches | src/saneless/auto_profiles.py:953-965 | each persisted table's owned keys are exactly the generated values |
| Merge.WriteTwice | src/saneless/auto_profiles.py:1012-1149 | a second write adds, refreshes and removes nothing and changes nothing; it pins again exactly when the device id is empty and none was set |
| Merge.PinDevice | src/saneless/auto_profiles.py:968-1009 | a set device is never changed, control characters are never pinned |
| Merge.RefreshTable | src/saneless/auto_profiles.py:959-964 | owned keys become the generated ones and every other key stays |
| Startup.PersistAtStartup | src/saneless/startup_profiles.py:44-69 | memory equals what a restart loads exactly when the write pruned nothing, which on the bare path is always |
| Startup.ProfilesAfterPersist | src/saneless/startup_profiles.py:44-69 | the persisted profile where there is one, the loaded one elsewhere |
| Startup.GeneratedRoundTrips | src/saneless/auto_profiles.py:742-781 | a whole generated set comes back from the file as it was |
| AnswerSlot.OneAnswer | src/saneless/flip.py:141-205 | over every interleaving the answer never changes, every settle returns it, at most one offer wins, and the event means an answer |
| AnswerSlot.LosingLeavesNoTrace | src/saneless/flip.py:166-184 | an offer that loses changes neither answer nor event |
| AnswerSlot.SomeoneCanStep | src/saneless/flip.py:166-205 | no interleaving of calls is stuck |

## Left out

- Pipeline: previews, thumbnails, status events and other observers, which never end a run; the wording of warnings and notes; `failure_notes`; device resolution and the metadata check before a run; KeyboardInterrupt.
- Pipeline: `_SpoolLedger.passes` holds sinks, and the ghost field `flight` mirrors what they hold.
- Pipeline.PipelineRun.ScanMultiPage: runs whose operator never stops answering are covered prefix by prefix, through the finite patience.
- Delivery.PaperlessPort.Upload: paperless-ngx is taken to be honest: it stored what it answers with a task id, and nothing that it refuses with a status other than 406 and 5xx or answers with redirects.
- Delivery.PaperlessPort.Poll: a task that failed because paperless-ngx already holds the document counts as found done, as it does in the program; the duplicate warning is left out.
- Scanner.ScanPages: the backend's contract is assumed; SANE, child processes and page geometry are not part of this model.
- Spool.SpooledPageSink.Add: the room on the disk may change between two sheets, and within one only as a refusal; image modes are a flag on the sheet, and the ink measurement's arithmetic (`measure_ink`, `_level_at`) is taken as given numbers.
- Preservation.PreserveMostFinished: file names are structured values; titles, job ids and the disk-room rule's megabytes are not modelled, and a lack of room is a refused assembly.
- DurableCopy.MoveAcross: a change of the source's volume and one of the destination's are ordered only by the calls, as a crash may keep any part of either.
- Durable.ReplaceFileAtomically: symbolic links, modes, owners, ACLs, xattrs, read-only mounts and the sweep of stale temporary files; directory changes reach the disk in the order they were made.
- PaperlessUpload.PaperlessClient.UploadDocument: an exact clock and sleep; token striking, redirects and messages are left out.
- PaperlessFetch.FetchCollection: the page bound is computed exactly, where the program divides floats, which differ only for counts past 2^53.
- PaperlessPoll.PollTask: finding the task in the body, and telling a duplicate from its text, are parameters of a poll's body.
- JobStore: migrations, the read-only reader, vacuuming and JSON columns; timestamps are numbers, as every writer stamps UTC, and equal ones are taken in insertion order.
- Profiles.GenerateProfiles: how a resolution and a mode are picked, the descriptions, which are a parameter, and the length limits of labels; text is compared as ASCII, so letters whose lower case is ASCII only in Unicode are not covered.
- Merge.WriteProfiles: TOML text, comments, order and the round-trip check of the rendered text; the document is nested maps.
- Startup.PersistAtStartup: settings that come from the environment instead of the file.
- AnswerSlot: `wait` only delays its caller; its timeout is the `settle` that follows.
- cli.py: terminal prompts, their deadlines and the hangup grace period; `config.py`'s discovery of files; `workspace.py`'s locks and sweeps.
