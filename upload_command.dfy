/** The `upload_screenshots` command: check the folder, pick its image files, announce
    them, send them in numbered batches of at most ten attachments, and report the end of
    the upload or the first error. The chat channel is modelled by the sequence of events
    the command emits, in the order it emits them. */
module UploadCommand {
  import opened ImageFilter
  import opened Batching

  datatype Option<T> = None | Some(value: T)

  /** The plain-text messages the command sends, by kind and the values they show. */
  datatype Status =
    | NotADirectory(path: string)        // "Error: '<path>' is not a valid directory!"
    | NoImages(path: string)             // "No image files found in '<path>'!"
    | Found(count: nat, batchSize: nat)  // "Found <count> files. Starting upload in batches of <batchSize>..."
    | Finished(count: nat)               // "Finished uploading all <count> screenshots!"
    | Failed(reason: string)             // "An error occurred: <reason>"

  /** One call of the channel's send: a plain message, or a batch message
      "Uploading batch <current>/<total>" carrying one attachment per path. */
  datatype Event =
    | StatusMsg(status: Status)
    | BatchSend(current: nat, total: nat, attachments: seq<string>)

  /** Where, if anywhere, an exception is raised inside the command's `try` block.
      ListingFault: listing the directory fails. BatchFault(index, _): opening one of the
      files of the batch at 0-based position `index` (shown as batch index + 1), or sending
      that batch, fails; an index past the last batch names no batch and raises nothing.
      `reason` is the exception's text. */
  datatype Fault =
    | NoFault
    | ListingFault(reason: string)
    | BatchFault(index: nat, reason: string)

  /** The attachment paths of a batch: each name joined to the folder, in batch order. */
  function Attachments(folder: string, names: seq<string>): (r: seq<string>)
    ensures |r| == |names|
    ensures forall t :: 0 <= t < |names| ==> r[t] == JoinPath(folder, names[t])
  {
    if names == [] then [] else [JoinPath(folder, names[0])] + Attachments(folder, names[1..])
  }

  lemma {:induction false} AttachmentsAppend(folder: string, a: seq<string>, b: seq<string>)
    ensures Attachments(folder, a + b) == Attachments(folder, a) + Attachments(folder, b)
  {
    if a == [] {
      assert a + b == b;
    } else {
      assert (a + b)[1..] == a[1..] + b;
      AttachmentsAppend(folder, a[1..], b);
    }
  }

  /** The batch messages of a complete upload: batch j of the reference batching goes out
      as number j + 1 of however many batches there are. */
  function BatchSends(folder: string, files: seq<string>): (r: seq<Event>)
    ensures |r| == TotalBatches(|files|)
    ensures forall j :: 0 <= j < |r| ==> r[j].BatchSend? && r[j].current == j + 1 && r[j].total == |r|
  {
    var batches := Chunks(files);
    seq(|batches|, j requires 0 <= j < |batches| =>
      BatchSend(j + 1, |batches|, Attachments(folder, batches[j])))
  }

  /** How many batches go out before the fault strikes, out of `total`. */
  function BatchesSent(fault: Fault, total: nat): (k: nat)
    ensures k <= total
    ensures k < total <==> fault.BatchFault? && fault.index < total
    ensures k < total ==> k == fault.index
  {
    if fault.BatchFault? && fault.index < total then fault.index else total
  }

  /** The events the command emits for a folder whose listing is `listing` (None when the
      path is not a directory) when `fault` describes where an exception is raised. */
  function UploadLog(folder: string, listing: Option<seq<string>>, fault: Fault): (r: seq<Event>)
    ensures 1 <= |r|
    ensures r[0].StatusMsg? && r[|r| - 1].StatusMsg?
    ensures forall t :: 0 < t < |r| - 1 ==> r[t].BatchSend?
    ensures |r| == 1 <==> listing.None? || fault.ListingFault? || ImageFiles(listing.value) == []
  {
    match listing
    case None => [StatusMsg(NotADirectory(folder))]
    case Some(entries) =>
      if fault.ListingFault? then [StatusMsg(Failed(fault.reason))]
      else
        var files := ImageFiles(entries);
        if files == [] then [StatusMsg(NoImages(folder))]
        else
          var sends := BatchSends(folder, files);
          var k := BatchesSent(fault, |sends|);
          [StatusMsg(Found(|files|, MAX_FILES_PER_MESSAGE))] + sends[..k] +
          [if k < |sends| then StatusMsg(Failed(fault.reason)) else StatusMsg(Finished(|files|))]
  }

  /** Batch message j of a complete upload is the one the loop builds at offset 10 * j:
      numbered by the `current_batch` formula, totalled by the `total_batches` formula, and
      carrying the paths of the slice `files[10 * j : 10 * j + 10]`. */
  lemma BatchSendAt(folder: string, files: seq<string>, j: nat)
    requires j < |BatchSends(folder, files)|
    ensures j * MAX_FILES_PER_MESSAGE < |files|
    ensures BatchSends(folder, files)[j] ==
      BatchSend(CurrentBatch(j * MAX_FILES_PER_MESSAGE), TotalBatches(|files|),
        Attachments(folder, files[j * MAX_FILES_PER_MESSAGE .. Min(j * MAX_FILES_PER_MESSAGE + MAX_FILES_PER_MESSAGE, |files|)]))
  {
    ChunkAt(files, j);
    BatchNumbering(|files|, j);
  }

  /** The inner loop of a batch: one attachment per file, appended in batch order. */
  method FilesToUpload(folder: string, batch: seq<string>) returns (filesToUpload: seq<string>)
    ensures filesToUpload == Attachments(folder, batch)
  {
    filesToUpload := [];
    for t := 0 to |batch|
      invariant filesToUpload == Attachments(folder, batch[..t])
    {
      AttachmentsAppend(folder, batch[..t], [batch[t]]);
      assert batch[..t + 1] == batch[..t] + [batch[t]];
      filesToUpload := filesToUpload + [JoinPath(folder, batch[t])];
    }
    assert batch[..|batch|] == batch;
  }

  /** Appending the next element of `s` to a prefix of `s` gives the next prefix. */
  lemma PrefixStep<T>(head: seq<T>, s: seq<T>, k: nat)
    requires k < |s|
    ensures head + s[..k] + [s[k]] == head + s[..k + 1]
  {
    assert s[..k + 1] == s[..k] + [s[k]];
  }

  /** The command itself. It takes the steps of `upload_screenshots` in upload_bot.py, one send at a time:
      the loop visits the offsets 0, 10, 20, ... of the image list, slices each batch,
      builds its attachment list by appending one path per file, and numbers the batch
      with the command's two formulas. */
  method UploadScreenshots(folder: string, listing: Option<seq<string>>, fault: Fault)
    returns (emitted: seq<Event>)
    ensures emitted == UploadLog(folder, listing, fault)
  {
    if listing.None? {
      emitted := [StatusMsg(NotADirectory(folder))];
      return;
    }
    if fault.ListingFault? {
      emitted := [StatusMsg(Failed(fault.reason))];
      return;
    }
    var screenshots := ImageFiles(listing.value);
    if |screenshots| == 0 {
      emitted := [StatusMsg(NoImages(folder))];
      return;
    }
    var totalFiles := |screenshots|;
    emitted := [StatusMsg(Found(totalFiles, MAX_FILES_PER_MESSAGE))];
    ghost var sends := BatchSends(folder, screenshots);
    ghost var k := 0;
    var i := 0;
    while i < totalFiles
      invariant i == k * MAX_FILES_PER_MESSAGE && i < totalFiles + MAX_FILES_PER_MESSAGE
      invariant k <= |sends|
      invariant emitted == [StatusMsg(Found(totalFiles, MAX_FILES_PER_MESSAGE))] + sends[..k]
      invariant !(fault.BatchFault? && fault.index < k)
    {
      var batch := screenshots[i..Min(i + MAX_FILES_PER_MESSAGE, totalFiles)];
      var filesToUpload := FilesToUpload(folder, batch);
      var currentBatch := CurrentBatch(i);
      var totalBatches := TotalBatches(totalFiles);
      assert sends[k] == BatchSend(currentBatch, totalBatches, filesToUpload) by {
        BatchSendAt(folder, screenshots, k);
      }
      if fault.BatchFault? && fault.index == currentBatch - 1 {
        emitted := emitted + [StatusMsg(Failed(fault.reason))];
        assert emitted == UploadLog(folder, listing, fault) by {
          assert BatchesSent(fault, |sends|) == k;
        }
        return;
      }
      emitted := emitted + [BatchSend(currentBatch, totalBatches, filesToUpload)];
      assert emitted == [StatusMsg(Found(totalFiles, MAX_FILES_PER_MESSAGE))] + sends[..k + 1] by {
        PrefixStep([StatusMsg(Found(totalFiles, MAX_FILES_PER_MESSAGE))], sends, k);
      }
      i := i + MAX_FILES_PER_MESSAGE;
      k := k + 1;
    }
    emitted := emitted + [StatusMsg(Finished(totalFiles))];
    assert emitted == UploadLog(folder, listing, fault) by {
      assert k == |sends| && sends[..k] == sends;
      assert BatchesSent(fault, |sends|) == k;
    }
  }

  /** The batch messages among the emitted events, in order. */
  function Sends(log: seq<Event>): seq<Event> {
    if log == [] then [] else (if log[0].BatchSend? then [log[0]] else []) + Sends(log[1..])
  }

  /** The plain messages among the emitted events, in order. */
  function Statuses(log: seq<Event>): seq<Status> {
    if log == [] then [] else (if log[0].StatusMsg? then [log[0].status] else []) + Statuses(log[1..])
  }

  /** Every attachment path sent, in the order it was sent. */
  function Uploaded(log: seq<Event>): seq<string> {
    if log == [] then [] else (if log[0].BatchSend? then log[0].attachments else []) + Uploaded(log[1..])
  }

  /** Each view of the events of two consecutive stretches is the view of the first
      followed by the view of the second. */
  lemma {:induction false} SendsAppend(a: seq<Event>, b: seq<Event>)
    ensures Sends(a + b) == Sends(a) + Sends(b)
  {
    if a == [] {
      assert a + b == b;
    } else {
      assert (a + b)[1..] == a[1..] + b;
      SendsAppend(a[1..], b);
    }
  }

  lemma {:induction false} StatusesAppend(a: seq<Event>, b: seq<Event>)
    ensures Statuses(a + b) == Statuses(a) + Statuses(b)
  {
    if a == [] {
      assert a + b == b;
    } else {
      assert (a + b)[1..] == a[1..] + b;
      StatusesAppend(a[1..], b);
    }
  }

  lemma {:induction false} UploadedAppend(a: seq<Event>, b: seq<Event>)
    ensures Uploaded(a + b) == Uploaded(a) + Uploaded(b)
  {
    if a == [] {
      assert a + b == b;
    } else {
      assert (a + b)[1..] == a[1..] + b;
      UploadedAppend(a[1..], b);
    }
  }

  lemma ViewsAppend(a: seq<Event>, b: seq<Event>)
    ensures Sends(a + b) == Sends(a) + Sends(b)
    ensures Statuses(a + b) == Statuses(a) + Statuses(b)
    ensures Uploaded(a + b) == Uploaded(a) + Uploaded(b)
  {
    SendsAppend(a, b);
    StatusesAppend(a, b);
    UploadedAppend(a, b);
  }

  lemma ViewsOfOne(e: Event)
    ensures Sends([e]) == if e.BatchSend? then [e] else []
    ensures Statuses([e]) == if e.StatusMsg? then [e.status] else []
    ensures Uploaded([e]) == if e.BatchSend? then e.attachments else []
  {
    assert [e][1..] == [];
  }

  /** Batch messages framed by two plain messages: the batch view is the batch messages,
      the plain view is the two messages, and the attachments are those of the batches. */
  lemma ViewsFramed(first: Status, batches: seq<Event>, last: Status)
    requires Sends(batches) == batches && Statuses(batches) == []
    ensures var log := [StatusMsg(first)] + batches + [StatusMsg(last)];
      Sends(log) == batches && Statuses(log) == [first, last] && Uploaded(log) == Uploaded(batches)
  {
    ViewsAppend([StatusMsg(first)] + batches, [StatusMsg(last)]);
    ViewsAppend([StatusMsg(first)], batches);
    ViewsOfOne(StatusMsg(first));
    ViewsOfOne(StatusMsg(last));
  }

  /** One more batch message after a stretch of batch messages. */
  lemma ViewsSnoc(batches: seq<Event>, e: Event)
    requires Sends(batches) == batches && Statuses(batches) == [] && e.BatchSend?
    ensures Sends(batches + [e]) == batches + [e]
    ensures Statuses(batches + [e]) == []
    ensures Uploaded(batches + [e]) == Uploaded(batches) + e.attachments
  {
    ViewsAppend(batches, [e]);
    ViewsOfOne(e);
  }

  /** The first k batch messages of a complete upload are all batch messages, and between
      them they carry the paths of the files of the first k batches, in order. */
  lemma {:induction false} BatchSendsPrefix(folder: string, files: seq<string>, k: nat)
    requires k <= |BatchSends(folder, files)|
    ensures var p := BatchSends(folder, files)[..k];
      Sends(p) == p && Statuses(p) == [] &&
      Uploaded(p) == Attachments(folder, Flatten(Chunks(files)[..k]))
  {
    var sends, batches := BatchSends(folder, files), Chunks(files);
    if k == 0 {
      assert sends[..0] == [] && batches[..0] == [];
    } else {
      var last := sends[k - 1];
      assert last == BatchSend(k, |batches|, Attachments(folder, batches[k - 1]));
      BatchSendsPrefix(folder, files, k - 1);
      TakeSnoc(sends, k);
      ViewsSnoc(sends[..k - 1], last);
      FlattenSnoc(batches, k);
      AttachmentsAppend(folder, Flatten(batches[..k - 1]), batches[k - 1]);
    }
  }

  /** A path that is not a directory gets one error message and nothing else. */
  lemma NotADirectoryRun(folder: string, fault: Fault)
    ensures UploadLog(folder, None, fault) == [StatusMsg(NotADirectory(folder))]
    ensures Sends(UploadLog(folder, None, fault)) == []
  {
    ViewsOfOne(StatusMsg(NotADirectory(folder)));
  }

  /** A folder that cannot be listed gets one error message and nothing else. */
  lemma ListingFailureRun(folder: string, entries: seq<string>, reason: string)
    ensures UploadLog(folder, Some(entries), ListingFault(reason)) == [StatusMsg(Failed(reason))]
    ensures Sends(UploadLog(folder, Some(entries), ListingFault(reason))) == []
  {
    ViewsOfOne(StatusMsg(Failed(reason)));
  }

  /** A folder none of whose entries is an image gets one "no image files" message and
      nothing else, whatever batch would have failed. */
  lemma NoImagesRun(folder: string, entries: seq<string>, fault: Fault)
    requires !fault.ListingFault?
    requires forall e :: e in entries ==> !IsImageName(e)
    ensures UploadLog(folder, Some(entries), fault) == [StatusMsg(NoImages(folder))]
    ensures Sends(UploadLog(folder, Some(entries), fault)) == []
  {
    NoImageNames(entries);
    ViewsOfOne(StatusMsg(NoImages(folder)));
  }

  /** The batch messages of a complete upload: ceil(n / 10) of them, numbered 1, 2, ...
      out of that same total, each carrying the paths of the next at most ten files (ten
      in every batch but the last). */
  lemma BatchSendsShape(folder: string, files: seq<string>)
    ensures |BatchSends(folder, files)| == TotalBatches(|files|)
    ensures forall j :: 0 <= j < |BatchSends(folder, files)| ==>
      BatchSends(folder, files)[j] == BatchSend(j + 1, TotalBatches(|files|), Attachments(folder,
        files[j * MAX_FILES_PER_MESSAGE .. Min(j * MAX_FILES_PER_MESSAGE + MAX_FILES_PER_MESSAGE, |files|)]))
    ensures forall j :: 0 <= j < |BatchSends(folder, files)| ==>
      0 < |BatchSends(folder, files)[j].attachments| <= MAX_FILES_PER_MESSAGE
    ensures forall j :: 0 <= j < |BatchSends(folder, files)| - 1 ==>
      |BatchSends(folder, files)[j].attachments| == MAX_FILES_PER_MESSAGE
  {
    var sends := BatchSends(folder, files);
    forall j | 0 <= j < |sends|
      ensures sends[j] == BatchSend(j + 1, TotalBatches(|files|), Attachments(folder,
        files[j * MAX_FILES_PER_MESSAGE .. Min(j * MAX_FILES_PER_MESSAGE + MAX_FILES_PER_MESSAGE, |files|)]))
    {
      BatchSendAt(folder, files, j);
      BatchNumbering(|files|, j);
    }
    ChunkSizes(files);
  }

  /** An upload that meets no fault: the "found" message, then every batch message of a
      complete upload, then the "finished" message. Between them the batches carry every
      image file exactly once, in listing order. */
  lemma SuccessfulRun(folder: string, entries: seq<string>, fault: Fault)
    requires ImageFiles(entries) != []
    requires fault.NoFault? || (fault.BatchFault? && fault.index >= TotalBatches(|ImageFiles(entries)|))
    ensures var n, log := |ImageFiles(entries)|, UploadLog(folder, Some(entries), fault);
      log == [StatusMsg(Found(n, MAX_FILES_PER_MESSAGE))] + Sends(log) + [StatusMsg(Finished(n))]
    ensures Sends(UploadLog(folder, Some(entries), fault)) == BatchSends(folder, ImageFiles(entries))
    ensures var n := |ImageFiles(entries)|;
      Statuses(UploadLog(folder, Some(entries), fault)) == [Found(n, MAX_FILES_PER_MESSAGE), Finished(n)]
    ensures Uploaded(UploadLog(folder, Some(entries), fault)) == Attachments(folder, ImageFiles(entries))
  {
    var files := ImageFiles(entries);
    var n := |files|;
    var sends := BatchSends(folder, files);
    var found, finished := StatusMsg(Found(n, MAX_FILES_PER_MESSAGE)), StatusMsg(Finished(n));
    assert UploadLog(folder, Some(entries), fault) == [found] + sends + [finished] by {
      assert BatchesSent(fault, |sends|) == |sends|;
      assert sends[..|sends|] == sends;
    }
    assert Sends(sends) == sends && Statuses(sends) == [] && Uploaded(sends) == Attachments(folder, files) by {
      BatchSendsPrefix(folder, files, |sends|);
      assert sends[..|sends|] == sends;
      assert Chunks(files)[..|sends|] == Chunks(files);
      ChunksFlatten(files);
    }
    ViewsFramed(found.status, sends, finished.status);
  }

  /** An upload whose batch at position k (shown as batch k + 1) fails: the batches before
      it stay sent, no later batch and no "finished" message goes out, and exactly one
      error message closes the run. The batches sent are the first k of a complete upload
      and carry its first 10 * k files. */
  lemma FailedRun(folder: string, entries: seq<string>, k: nat, reason: string)
    requires ImageFiles(entries) != []
    requires k < TotalBatches(|ImageFiles(entries)|)
    ensures var n, log := |ImageFiles(entries)|, UploadLog(folder, Some(entries), BatchFault(k, reason));
      log == [StatusMsg(Found(n, MAX_FILES_PER_MESSAGE))] + Sends(log) + [StatusMsg(Failed(reason))]
    ensures Sends(UploadLog(folder, Some(entries), BatchFault(k, reason))) ==
      BatchSends(folder, ImageFiles(entries))[..k]
    ensures |Sends(UploadLog(folder, Some(entries), BatchFault(k, reason)))| == k
    ensures var n := |ImageFiles(entries)|;
      Statuses(UploadLog(folder, Some(entries), BatchFault(k, reason))) == [Found(n, MAX_FILES_PER_MESSAGE), Failed(reason)]
    ensures Uploaded(UploadLog(folder, Some(entries), BatchFault(k, reason))) ==
      Attachments(folder, ImageFiles(entries)[..k * MAX_FILES_PER_MESSAGE])
  {
    var files := ImageFiles(entries);
    var n := |files|;
    var sends := BatchSends(folder, files);
    var found, failed := StatusMsg(Found(n, MAX_FILES_PER_MESSAGE)), StatusMsg(Failed(reason));
    assert UploadLog(folder, Some(entries), BatchFault(k, reason)) == [found] + sends[..k] + [failed] by {
      assert BatchesSent(BatchFault(k, reason), |sends|) == k;
    }
    BatchSendsPrefix(folder, files, k);
    ViewsFramed(found.status, sends[..k], failed.status);
    assert Flatten(Chunks(files)[..k]) == files[..k * MAX_FILES_PER_MESSAGE] by {
      ChunksPrefix(files, k);
      BatchNumbering(n, k);
    }
  }

  /** Ten image files go out as one batch message with ten attachments. */
  lemma TenImagesOneSend(folder: string, entries: seq<string>)
    requires |ImageFiles(entries)| == 10
    ensures var sends := Sends(UploadLog(folder, Some(entries), NoFault));
      |sends| == 1 && sends[0].BatchSend? && |sends[0].attachments| == 10
  {
    SuccessfulRun(folder, entries, NoFault);
    BatchSendsShape(folder, ImageFiles(entries));
  }

  /** Eleven image files go out as two batch messages, with ten and one attachments. */
  lemma ElevenImagesTwoSends(folder: string, entries: seq<string>)
    requires |ImageFiles(entries)| == 11
    ensures var sends := Sends(UploadLog(folder, Some(entries), NoFault));
      |sends| == 2 && sends[0].BatchSend? && sends[1].BatchSend? &&
      |sends[0].attachments| == 10 && |sends[1].attachments| == 1
  {
    SuccessfulRun(folder, entries, NoFault);
    BatchSendsShape(folder, ImageFiles(entries));
  }

  /** The two sample images of the folder `shots` are attached as `shots/a.png` and
      `shots/c.JPG`. */
  lemma SampleAttachments()
    ensures Attachments("shots", ["a.png", "c.JPG"]) == ["shots/a.png", "shots/c.JPG"]
  {
    var names := ["a.png", "c.JPG"];
    assert names[1..] == ["c.JPG"];
    assert names[1..][1..] == [];
    JoinSample();
    assert JoinPath("shots", "c.JPG") == "shots/c.JPG";
  }

  /** Up to ten image files go out as a single batch message, numbered 1 of 1, that
      attaches all of them. */
  lemma SingleBatchRun(folder: string, entries: seq<string>)
    requires 0 < |ImageFiles(entries)| <= MAX_FILES_PER_MESSAGE
    ensures var files := ImageFiles(entries);
      UploadLog(folder, Some(entries), NoFault) ==
        [StatusMsg(Found(|files|, MAX_FILES_PER_MESSAGE)), BatchSend(1, 1, Attachments(folder, files)),
         StatusMsg(Finished(|files|))]
  {
    var files := ImageFiles(entries);
    assert Chunks(files) == [files];
    var sends := BatchSends(folder, files);
    assert sends == [BatchSend(1, 1, Attachments(folder, files))];
    assert BatchesSent(NoFault, 1) == 1;
    assert sends[..1] == sends;
  }

  /** The folder `shots` holding `a.png`, `b.txt` and `c.JPG`: one batch message with the
      two image paths, framed by the "found 2" and "finished 2" messages. */
  lemma SampleFolderRun()
    ensures UploadLog("shots", Some(["a.png", "b.txt", "c.JPG"]), NoFault) ==
      [StatusMsg(Found(2, 10)), BatchSend(1, 1, ["shots/a.png", "shots/c.JPG"]), StatusMsg(Finished(2))]
  {
    SampleListing();
    SingleBatchRun("shots", ["a.png", "b.txt", "c.JPG"]);
    SampleAttachments();
  }

  /** The two sample images go out as one batch message, numbered 1 of 1. */
  lemma SampleBatchSends()
    ensures BatchSends("shots", ["a.png", "c.JPG"]) == [BatchSend(1, 1, ["shots/a.png", "shots/c.JPG"])]
  {
    var files := ["a.png", "c.JPG"];
    assert Chunks(files) == [files];
    SampleAttachments();
  }

  /** The sample folder gets exactly one batch message, numbered 1 of 1, carrying the
      paths of its two images. */
  lemma SampleSends()
    ensures Sends(UploadLog("shots", Some(["a.png", "b.txt", "c.JPG"]), NoFault)) ==
      [BatchSend(1, 1, ["shots/a.png", "shots/c.JPG"])]
  {
    SampleListing();
    SuccessfulRun("shots", ["a.png", "b.txt", "c.JPG"], NoFault);
    SampleBatchSends();
  }
}
