# SupLoader `upload_screenshots`, modelled in Dafny

SupLoader is a Discord bot whose one piece of logic is the `upload_screenshots` command.
The command is given a folder path and works in these steps:

- It checks that the path is a directory.
- It keeps the entries whose lower-cased name ends in `.png`, `.jpg` or `.jpeg`.
- It announces how many it found.
- It sends them in numbered batches of at most `MAX_FILES_PER_MESSAGE` (10) attachments.
- It ends with a "finished" message, or with one error message if anything in it raises an `Exception`.

This project models that command and proves what it sends.

The model is split into three modules:

- `ImageFilter` (`image_filter.dfy`):
  - the extension test and the list comprehension that applies it;
  - POSIX `os.path.join`.
- `Batching` (`batching.dfy`):
  - the batch-size constant;
  - a reference definition of the batches (`Chunks`);
  - the two batch-number formulas `i // 10 + 1` and `(n - 1) // 10 + 1`.
- `UploadCommand` (`upload_command.dfy`):
  - The chat channel is modelled as the sequence of events the command emits:
    - a plain `StatusMsg`, whose `Status` gives the message kind and the values it shows;
    - a `BatchSend(current, total, attachments)`.
  - The file system becomes an input: `None` for a path that is not a directory, `Some(entries)` for its listing.
  - Where an exception is raised becomes an input too (`Fault`):
    - nowhere;
    - while listing;
    - while opening or sending the batch at some 0-based position.
  - `UploadLog` says which events come out.
  - The method `UploadScreenshots` takes the steps of `upload_screenshots` in upload_bot.py and is proved to emit exactly `UploadLog`:
    - the loop over offsets 0, 10, 20, …;
    - the slice of each batch;
    - the inner loop that appends one path per file;
    - the two numbering formulas.
  - The run lemmas state what a run looks like in each case. They use three views of an event log:
    - `Sends`: the batch messages;
    - `Statuses`: the plain messages;
    - `Uploaded`: every attachment path, in sending order.

## Model

| member | source | states |
|---|---|---|
| Batching.MAX_FILES_PER_MESSAGE | upload_bot.py:7 | a message carries at most 10 attachments (the constant every batching lemma is stated with) |
| Batching.TotalBatches | upload_bot.py:45 | `(n - 1) // 10 + 1` is the ceiling of n / 10: r batches of ten hold n files and r - 1 do not |
| Batching.CurrentBatch | upload_bot.py:44 | `i // 10 + 1` is at least 1 and is the 1-based number of the ten-file batch holding offset i |
| Batching.BatchNumbering | upload_bot.py:36-45 | the j-th loop offset 10 * j lies inside the list, and its batch number is j + 1, between 1 and `total_batches` |
| Batching.Chunks | upload_bot.py:36-37 | the reference batching has ceil(n / 10) batches |
| Batching.ChunkSizes | upload_bot.py:36-37 | every batch holds 1 to 10 files, and every batch but the last holds exactly 10 |
| Batching.ChunksFlatten | upload_bot.py:36-37 | the batches concatenated in order give back the file list: nothing lost, repeated or reordered |
| Batching.ChunkAt | upload_bot.py:36-37 | batch j is the slice `files[10j : 10j + 10]` the loop takes, truncated at the end of the list |
| Batching.ChunksPrefix | upload_bot.py:36-37 | the first k batches hold exactly the first min(10k, n) files |
| Batching.FlattenAppend | upload_bot.py:36-37 | concatenating batch lists distributes over appending them |
| Batching.FlattenSnoc | upload_bot.py:36-37 | one more batch appends exactly its files |
| Batching.TenFilesOneBatch | upload_bot.py:36-37 | ten files form a single batch |
| Batching.ElevenFilesTwoBatches | upload_bot.py:36-37 | eleven files form batches of 10 and 1 |
| ImageFilter.EndsWith | upload_bot.py:27 | `str.endswith`: s ends with suffix iff s is its own prefix followed by suffix |
| ImageFilter.IsImageName | upload_bot.py:27 | the test on each entry; a name it accepts has at least the four characters of `.png` or `.jpg` |
| ImageFilter.LowerChar | upload_bot.py:27 | `A`-`Z` map to `a`-`z`, and every other character is unchanged |
| ImageFilter.Lower | upload_bot.py:27 | lower-casing keeps the length and folds each character |
| ImageFilter.LowerSuffix | upload_bot.py:27 | the lower-cased name ends with ext iff its tail equals ext character by character, ignoring case |
| ImageFilter.IsImageNameIgnoresCase | upload_bot.py:27 | an entry is an image iff its name ends in `.png`, `.jpg` or `.jpeg` in any mixture of case |
| ImageFilter.ImageFiles | upload_bot.py:27 | a name is in the result iff it is in the listing and is an image name; the result is no longer than the listing |
| ImageFilter.ImageFilesAppend | upload_bot.py:27 | filtering keeps listing order: filtering a + b gives the filtered a followed by the filtered b |
| ImageFilter.ImageFilesCount | upload_bot.py:27 | each image name occurs as often as in the listing; other names do not occur |
| ImageFilter.NoImageNames | upload_bot.py:27-29 | a listing without image names yields an empty list |
| ImageFilter.ImageFilesSingle | upload_bot.py:27 | a one-entry listing keeps its entry iff it is an image name |
| ImageFilter.PngKept | upload_bot.py:27 | `a.png` is kept |
| ImageFilter.TextFileDropped | upload_bot.py:27 | `b.txt` is dropped |
| ImageFilter.UpperCaseJpgKept | upload_bot.py:27 | `c.JPG` is kept |
| ImageFilter.SampleListing | upload_bot.py:27 | `a.png`, `b.txt`, `c.JPG` yield `a.png`, `c.JPG`, in that order |
| ImageFilter.JoinPath | upload_bot.py:41 | POSIX `os.path.join`; the path is at least as long as the name and adds at most one separator to folder and name |
| ImageFilter.JoinPathShape | upload_bot.py:41 | a joined path ends with the name; for a relative name it starts with the folder and has exactly one `/` between them unless the folder is empty or already ends in `/` |
| ImageFilter.JoinSample | upload_bot.py:41 | `shots` or `shots/` joined with `a.png` give `shots/a.png`; an empty folder gives `a.png` |
| UploadCommand.UploadLog | upload_bot.py:21-55 | the events of one run: never empty, first and last a plain message, everything in between a batch message; a single event exactly when the path is not a directory, listing raises or no image is found |
| UploadCommand.BatchSends | upload_bot.py:36-50 | a complete upload sends ceil(n / 10) batch messages, the j-th numbered j + 1 out of that same total |
| UploadCommand.Attachments | upload_bot.py:40-42 | one path per file, in batch order, each the folder joined with the file name |
| UploadCommand.AttachmentsAppend | upload_bot.py:40-42 | the paths of two consecutive stretches of files are the paths of the first followed by those of the second |
| UploadCommand.FilesToUpload | upload_bot.py:38-42 | the inner loop's appended list is exactly the batch's attachment paths |
| UploadCommand.BatchesSent | upload_bot.py:36-55 | a fault at batch k < total leaves exactly k batches sent; any other fault leaves all of them |
| UploadCommand.BatchSendAt | upload_bot.py:36-50 | batch message j carries `current_batch` at offset 10j, `total_batches`, and the paths of the slice taken there |
| UploadCommand.UploadScreenshots | upload_bot.py:21-55 | the command's steps emit exactly the events of `UploadLog` for every listing and fault |
| UploadCommand.SendsAppend | upload_bot.py:47-50 | the batch view of two stretches of events is the view of the first followed by the view of the second |
| UploadCommand.StatusesAppend | upload_bot.py:23-55 | the same for the plain-message view |
| UploadCommand.UploadedAppend | upload_bot.py:47-50 | the same for the attachment view |
| UploadCommand.ViewsFramed | upload_bot.py:34-55 | batch messages between two plain messages: the batch view is the batches, the plain view is the two messages |
| UploadCommand.ViewsSnoc | upload_bot.py:47-50 | one more batch message adds itself to the batch view and its paths to the attachment view |
| UploadCommand.BatchSendsPrefix | upload_bot.py:36-50 | the first k batch messages carry the paths of the files of the first k batches, in order |
| UploadCommand.NotADirectoryRun | upload_bot.py:23-25 | a path that is not a directory gets exactly one error message and no batch send |
| UploadCommand.ListingFailureRun | upload_bot.py:27-55 | a listing that raises gets exactly one error message and no batch send |
| UploadCommand.NoImagesRun | upload_bot.py:27-31 | a folder without image names gets exactly one "no image files" message and no batch send |
| UploadCommand.BatchSendsShape | upload_bot.py:36-50 | a complete upload sends ceil(n / 10) batch messages, numbered 1, 2, … of that same total, each with 1 to 10 paths (10 in all but the last) from the slice at offset 10j |
| UploadCommand.SuccessfulRun | upload_bot.py:33-52 | without a fault the events are "found n", the batch messages, then "finished n"; every image path is attached once, in listing order |
| UploadCommand.FailedRun | upload_bot.py:33-55 | a fault at batch k keeps the k earlier batch messages (the first k of a complete upload, carrying the first 10k files), sends no later batch and no "finished", and ends with exactly one error message |
| UploadCommand.TenImagesOneSend | upload_bot.py:36-50 | ten images go out in one batch message with ten attachments |
| UploadCommand.ElevenImagesTwoSends | upload_bot.py:36-50 | eleven images go out in two batch messages with ten and one attachments |
| UploadCommand.SampleAttachments | upload_bot.py:40-42 | in folder `shots`, `a.png` and `c.JPG` are attached as `shots/a.png` and `shots/c.JPG` |
| UploadCommand.SampleBatchSends | upload_bot.py:36-50 | two images in folder `shots` go out as one batch message numbered 1 of 1 with both paths |
| UploadCommand.SampleSends | upload_bot.py:21-52 | the sample folder run sends exactly one batch message, 1 of 1, with `shots/a.png` and `shots/c.JPG` |
| UploadCommand.SingleBatchRun | upload_bot.py:33-52 | one to ten images give "found n", one batch message 1 of 1 with all their paths, then "finished n" |
| UploadCommand.SampleFolderRun | upload_bot.py:21-52 | folder `shots` with `a.png`, `b.txt`, `c.JPG`: "found 2", one batch message 1/1 with `shots/a.png` and `shots/c.JPG`, then "finished 2" |

## Left out

- Discord client setup, the `on_ready` handler and process startup (upload_bot.py:1-6, 8-20, 57-66): library and environment glue with no logic to state.
- The file system and the network:
  - `os.path.isdir` and `os.listdir` become the optional listing.
  - Reading each file into an attachment becomes its path.
  - `ctx.send` becomes an emitted event.
- Async execution: each `await ctx.send` is one event in order, and there is no concurrency.
- Message texts: each message is modelled as its kind plus the values it shows, not as a rendered string. The exception text is an input.
- Exceptions while sending the plain messages (upload_bot.py:24, 30, 34, 52): not modelled. Only a failing listing, a failing file open and a failing batch send are modelled.
- A failing send of the error message itself (upload_bot.py:55): the command then ends with no error message at all; the model always emits it.
- Exceptions outside `Exception` (`asyncio.CancelledError` when the command task is cancelled, `KeyboardInterrupt`): the handler at upload_bot.py:54 does not catch them, so the command stops with no error message; the model has no such fault.
- ImageFilter.Lower: folds only ASCII letters, while Python's `str.lower` also folds letters of other scripts (and can change the length, as U+0130 does). The image test is unaffected: the only non-ASCII characters whose lower case contains an ASCII character are U+0130 (to `i` plus a combining dot) and the Kelvin sign U+212A (to `k`), and neither `i`, `k` nor the combining dot occurs in `.png`, `.jpg` or `.jpeg`, so both foldings keep exactly the same names.
- ImageFilter.JoinPath: follows POSIX `os.path.join` and does not model Windows drive letters or backslashes.
- Progress-bar editing, elapsed time, throughput and a pause between batches: the command's code has none of these, so the model has none either.
