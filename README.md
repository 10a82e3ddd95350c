# VideoToASCIIWebsite core, modelled in Dafny

VideoToASCIIWebsite turns an uploaded video into ASCII-art frames in the
browser. FFmpeg (compiled to WebAssembly) extracts numbered PNG frames into
a virtual file system. The video processor reads them back in order. For
each frame it takes the mean of the red, green and blue bytes of every
pixel and maps it through a glyph ramp chosen by a detail level. Every row
of the frame text ends with a line break. A small server route keeps
finished videos in an in-memory table so they can be shared by link or
played in a terminal. Two upload validators, one in the drop zone and one on
the home page, only accept video files of at most 100 MiB.

The model has six modules:

- `Glyphs` (glyphs.dfy): the four glyph ramps `asciiMaps` and `getAsciiChar`.
- `Rasterizer` (rasterizer.dfy): `imageDataToAscii`. A decoded image is
  drawn on a canvas `asciiWidth` pixels wide and `CanvasHeight` rows tall, and
  the pixel loops convert the buffer read back from it. A canvas with no
  pixels makes `getImageData` throw IndexSizeError, and the conversion rejects.
- `FramePipeline` (frame_pipeline.dfy): the frame-rate clamps, the setup steps
  and their error messages, and the read loops of `processVideoToAscii` and
  `processVideoInChunks`. The frame store maps frame numbers to decoded
  images. The loops are methods proved against specification functions: the
  run of frames present from frame 1 (`RunLength`), the run of them that
  convert (`DrawnRun`), the converted texts (`ConvertedFrames`) and the
  progress reports (`BatchProgress`).
- `StreamRoute` (stream_route.dfy): the `videoStreams` table as a class, with
  `Post`, `Get` and the reaper body `Reap`. Each is tied to pure
  functions (`NewStream`, `Lookup`, `Reaped`) that carry the round-trip,
  lifetime and idempotence lemmas.
- `FileDropZone` (file_drop_zone.dfy): `validateFile`, `handleFile`,
  `handleDrop` and `handleFileInput`. The calls made to `onError` and
  `onFileSelect` are recorded in order.
- `HomePage` (home_page.dfy): the validation branch of `handleFileChange`,
  with the React state updates it issues, in order.

`Results` (results.dfy) holds the `Option` and `Result` types.

Inputs the core cannot compute are parameters:

- the FFmpeg engine's behaviour (loaded or not, write or probe failure, the
  frame store an extraction leaves);
- the fresh UUID and `Date.now()` of a POST, and the time a reap runs;
- the `NEXT_PUBLIC_BASE_URL` setting.

## Model

| member | source | states |
|---|---|---|
| Glyphs.Ramp | src/app/utils/videoProcessor.ts:7-12 | the glyph lists of the four levels, in the source's order; every ramp has at least two entries, starts with a space and ends with '@' ('♦' for ultra); the ramps hold 10, 17, 63 and 94 glyphs |
| Glyphs.GlyphIndex | src/app/utils/videoProcessor.ts:14-16 | for a brightness in [0, 255] the index `floor((b / 255) * (len - 1))` lies inside the ramp; brightness 0 gives index 0 and brightness 255 the last index |
| Glyphs.GetAsciiChar | src/app/utils/videoProcessor.ts:14-18 | the glyph is an entry of the chosen ramp (the default level is medium); black gives ' ' and white gives '@', or '♦' on the ultra ramp |
| Glyphs.GlyphIndexIsFloor | src/app/utils/videoProcessor.ts:16 | the index is the floor of the brightness fraction times the ramp length minus one |
| Glyphs.GlyphIndexMonotone | src/app/utils/videoProcessor.ts:16 | a brighter pixel never selects an earlier glyph of the ramp |
| Glyphs.GlyphIndexOfChannelSum | src/app/utils/videoProcessor.ts:16 | for a mean `s / 3` of three bytes the index equals the integer quotient `s * (len - 1) / 765` |
| Glyphs.GetAsciiCharOfChannelSum | src/app/utils/videoProcessor.ts:14-17 | the glyph for a three-byte mean with sum s is ramp entry `s * (len - 1) / 765` |
| Glyphs.LowRampMidGrey | src/app/utils/videoProcessor.ts:8 | brightness 127 on the low ramp picks index 4, the glyph '=' |
| Rasterizer.CanvasHeight | src/app/utils/videoProcessor.ts:138 | the canvas height is `imageHeight * width / imageWidth` rounded to the nearest integer, halves upward |
| Rasterizer.CanvasHeightRounds | src/app/utils/videoProcessor.ts:138 | the canvas height h satisfies `2 * imageWidth * h <= 2 * imageHeight * width + imageWidth < 2 * imageWidth * (h + 1)`, so it is the exact quotient rounded to the nearest integer, halves upward |
| Rasterizer.CanvasHeightAtTargetWidth | src/app/utils/videoProcessor.ts:137-138 | an image already at the target width keeps its height |
| Rasterizer.CellInBounds | src/app/utils/videoProcessor.ts:146-149 | the red, green, blue and alpha bytes of every cell lie inside a `4 * width * height` buffer |
| Rasterizer.CellBrightness | src/app/utils/videoProcessor.ts:147-150 | a cell's mean of red, green and blue lies in [0, 255], the range `getAsciiChar` expects |
| Rasterizer.TopRowsIsLayout | src/app/utils/videoProcessor.ts:143-154 | the text of the first n rows is the first n glyph rows, each followed by a line break |
| Rasterizer.AsciiImage | src/app/utils/videoProcessor.ts:143-157 | the reference text of a buffer: all its rows, top to bottom |
| Rasterizer.TopRows | src/app/utils/videoProcessor.ts:143-154 | the text after the first n passes of the row loop: those rows' glyphs, each followed by a line break |
| Rasterizer.TopRowsLength | src/app/utils/videoProcessor.ts:143-154 | the first n rows take `n * (width + 1)` characters |
| Rasterizer.AsciiImageIsLayout | src/app/utils/videoProcessor.ts:143-154 | the frame text is all the glyph rows, each followed by a line break |
| Rasterizer.LayoutLength | src/app/utils/videoProcessor.ts:143-154 | n rows of one width give a text of `n * (width + 1)` characters |
| Rasterizer.LayoutAt | src/app/utils/videoProcessor.ts:143-154 | character x of row y sits at `y * (width + 1) + x`, and position `width` of each row is its line break |
| Rasterizer.AsciiImageShape | src/app/utils/videoProcessor.ts:143-154 | the frame text has length `height * (width + 1)`; cell (x, y) shows `getAsciiChar` of the mean of bytes `(y * width + x) * 4 .. + 2`; every row, the last one included, ends with a line break |
| Rasterizer.CellGlyphIgnoresAlpha | src/app/utils/videoProcessor.ts:146-151 | a cell's glyph depends only on the red, green and blue bytes of its pixel |
| Rasterizer.AlphaIgnored | src/app/utils/videoProcessor.ts:146-151 | two buffers that differ only in alpha bytes give the same frame text |
| Rasterizer.RowToAscii | src/app/utils/videoProcessor.ts:145-152 | the column loop produces exactly the glyphs of row y, left to right |
| Rasterizer.PixelsToAscii | src/app/utils/videoProcessor.ts:143-154 | the nested loops over the canvas buffer produce exactly the reference text `AsciiImage` of that buffer |
| Rasterizer.DrawableHasPixels | src/app/utils/videoProcessor.ts:137-141 | an image can be read back at a width exactly when the width is positive and its rounded canvas height is positive |
| Rasterizer.ImageText | src/app/utils/videoProcessor.ts:124-158 | a conversion succeeds exactly when the canvas at the target width has pixels |
| Rasterizer.ImageTextLength | src/app/utils/videoProcessor.ts:137-154 | a converted image has `CanvasHeight(imageWidth, imageHeight, width)` rows of `width` glyphs, each followed by a line break |
| Rasterizer.ImageDataToAscii | src/app/utils/videoProcessor.ts:124-158 | the conversion settles to `ImageText`: IndexSizeError when the canvas at `width` by the rounded height has no pixels, otherwise the text the pixel loops make of the buffer read back from that canvas |
| FramePipeline.ChunkedFrameRate | src/app/utils/videoProcessor.ts:188 | the chunked rate is at most 15 and at most the requested rate, and is one of the two |
| FramePipeline.PlainFrameRate | src/app/utils/videoProcessor.ts:82-84 | the plain rate is at most 20 and at most the requested rate; a rate below 20 is kept, any other becomes 20 |
| FramePipeline.ErrorMessage | src/app/utils/videoProcessor.ts:65-207 | engine not loaded: the fixed not-loaded message; a write failure: 'Failed to write video file: ' followed by the cause; an extraction failure: 'Failed to process video: ' followed by the cause; the chunked probe's failure: the cause alone; a canvas failure: 'IndexSizeError' |
| FramePipeline.PlainSetup | src/app/utils/videoProcessor.ts:65-91 | without a loaded engine the setup fails with NotLoaded; a success needs a loaded engine and a successful write; the plain path runs no probe and cannot fail on the canvas |
| FramePipeline.ChunkedSetup | src/app/utils/videoProcessor.ts:172-208 | without a loaded engine the setup fails with NotLoaded; a success needs a loaded engine, a successful write and a successful probe; a probe failure is reported only after a successful write |
| FramePipeline.ReadFrame | src/app/utils/videoProcessor.ts:99-110 | reading frame i succeeds exactly when the store holds it, and returns that frame |
| FramePipeline.RunLengthIsRun | src/app/utils/videoProcessor.ts:97-118 | the frames of the run from a start number are all present and the one after it is missing |
| FramePipeline.RunLengthAtLeast | src/app/utils/videoProcessor.ts:97-118 | any run of n present frames is no longer than the run length |
| FramePipeline.RunLengthExactly | src/app/utils/videoProcessor.ts:97-118 | a present run followed by a missing frame is exactly the run length |
| FramePipeline.RunLength | src/app/utils/videoProcessor.ts:97-118 | the number of frames present without a gap from a start number; its properties are stated by `RunLengthIsRun`, `RunLengthAtLeast` and `RunLengthExactly` |
| FramePipeline.DrawnRun | src/app/utils/videoProcessor.ts:97-118 | the frames of the run from a start number that convert at the width, with no gap and no failure; they are all present and convertible, and there are no more of them than the run length |
| FramePipeline.DrawnRunAtLeast | src/app/utils/videoProcessor.ts:113 | any run of n frames that convert is no longer than the drawn run |
| FramePipeline.DrawnRunExactly | src/app/utils/videoProcessor.ts:113 | a run of frames that convert, followed by a missing frame or one that fails, is exactly the drawn run |
| FramePipeline.Attempts | src/app/utils/videoProcessor.ts:219-232 | one conversion outcome per frame of a batch |
| FramePipeline.ConvertedFrames | src/app/utils/videoProcessor.ts:113-114 | the reference texts of a run of frames that convert, one per frame, in frame order |
| FramePipeline.ConvertedFramesShape | src/app/utils/videoProcessor.ts:137-154 | every converted frame is `CanvasHeight` rows of `asciiWidth` glyphs, each followed by a line break |
| FramePipeline.ConvertedFramesSnoc | src/app/utils/videoProcessor.ts:113-114 | converting one more frame appends its text at the end |
| FramePipeline.ConvertedFramesAppend | src/app/utils/videoProcessor.ts:236-238 | appending a batch's results to the frames already converted gives the conversions of the longer run, in order |
| FramePipeline.Gather | src/app/utils/videoProcessor.ts:237 | `Promise.all`: it succeeds exactly when every conversion of the batch succeeds, and then returns their texts, in order |
| FramePipeline.AttemptAt | src/app/utils/videoProcessor.ts:227 | outcome j of a batch is the conversion of frame start + j |
| FramePipeline.BatchConverted | src/app/utils/videoProcessor.ts:237 | a batch gathers without a failure exactly when every frame in it converts, and then to the converted texts of those frames |
| FramePipeline.FramesTaken | src/app/utils/videoProcessor.ts:215-234 | the chunked loop takes no more frames than are present from frame 1 and no more than maxFrames, and it takes one of the two |
| FramePipeline.FramesTakenAtStop | src/app/utils/videoProcessor.ts:215-234 | a present run from frame 1 that ends at a missing frame or at the cap is exactly the number of frames the chunked loop takes |
| FramePipeline.BatchAppended | src/app/utils/videoProcessor.ts:219-240 | a non-empty batch after whole batches extends the frames by the batch and the progress reports by the new total |
| FramePipeline.BatchFailed | src/app/utils/videoProcessor.ts:237 | a batch after whole batches that holds a frame that fails is the batch in which the drawn run ends, inside the frames the loop would take |
| FramePipeline.SameBatch | src/app/utils/videoProcessor.ts:220 | a count inside the batch after n whole batches rounds down to n whole batches |
| FramePipeline.BatchCollected | src/app/utils/videoProcessor.ts:219-240 | a converted batch appends its texts to the frames and the new total to the reports, and leaves the loop's invariant holding at its new index |
| FramePipeline.BatchProgressStep | src/app/utils/videoProcessor.ts:237-240 | after whole batches, one batch of s frames adds exactly one report, the new total |
| FramePipeline.BatchProgress | src/app/utils/videoProcessor.ts:240 | the reports of the chunked loop for a frame count: none for no frames, and the last report is the count |
| FramePipeline.BatchProgressShape | src/app/utils/videoProcessor.ts:237-240 | there is one report per batch; the reports strictly increase and never exceed the frame count; every report but the last is a multiple of ten, and the last equals the frame count |
| FramePipeline.ReadBatch | src/app/utils/videoProcessor.ts:219-237 | one batch reads at most ten consecutive present frames in order; it stops short only at a missing frame or past maxFrames; it leaves the frame index on the first unread frame; it gathers without failure exactly when all its frames convert, and then to their texts |
| FramePipeline.NextBatch | src/app/utils/videoProcessor.ts:216-240 | one pass of the outer loop: an empty batch leaves the index in place only when that frame is missing; a failing batch is the one where the drawn run ends; a converted batch keeps the loop invariant at the new index |
| FramePipeline.CollectBatches | src/app/utils/videoProcessor.ts:211-244 | when the loop ends it has collected the conversions of the frames taken with one report per batch, or it has stopped at the failing batch, having kept the whole batches before it |
| FramePipeline.ReadInBatches | src/app/utils/videoProcessor.ts:210-247 | with k the smaller of maxFrames and the present run from frame 1, and d the drawn run: the loop succeeds exactly when k <= d, and then returns the in-order conversions of frames 1..k with one cumulative report per batch; otherwise it rejects after reporting the whole batches before the failing one |
| FramePipeline.ProcessVideoInChunks | src/app/utils/videoProcessor.ts:161-248 | without a loaded engine it fails with the not-loaded message; a write, probe or extraction failure rejects with `ErrorMessage` of that failure and reports nothing; otherwise it returns what the read loop returns, and a frame whose canvas is empty makes it reject with IndexSizeError |
| FramePipeline.ProcessVideoToAscii | src/app/utils/videoProcessor.ts:56-122 | it fails the same way before its loop, with no probe step; otherwise it returns the conversions of the present run from frame 1, reporting 1, 2, 3, ... after each frame, or rejects with IndexSizeError at the first frame that does not convert, after reporting the frames before it |
| FramePipeline.FrameRead | src/app/utils/videoProcessor.ts:112-117 | converting the next frame appends its text and its frame number, and leaves fewer frames ahead |
| FramePipeline.ReadFrames | src/app/utils/videoProcessor.ts:93-118 | the loop succeeds exactly when every frame of the run from frame 1 converts, and then returns their conversions in order; it reports 1, 2, ... for every frame it converts, and rejects at the first one that fails |
| StreamRoute.StoredFrameRate | src/app/api/stream/route.ts:33 | a missing or zero rate is stored as 24; any other rate is stored as given |
| StreamRoute.StoredTitle | src/app/api/stream/route.ts:34 | a missing or empty title is stored as 'ASCII Video'; any other title is stored as given |
| StreamRoute.HasFrames | src/app/api/stream/route.ts:26 | a body is accepted only when its frames are an array with at least one entry |
| StreamRoute.NewStream | src/app/api/stream/route.ts:31-36 | the new entry keeps the posted frames, applies the two defaults and is stamped with the current time |
| StreamRoute.WebUrl | src/app/api/stream/route.ts:43 | the web link is '/stream/' followed by the id |
| StreamRoute.BaseUrl | src/app/api/stream/route.ts:38 | the configured base URL is used unless it is unset or empty, in which case it is http://localhost:3000 |
| StreamRoute.TerminalUrl | src/app/api/stream/route.ts:38 | the terminal command is 'curl -s ' + base + '/api/terminal/' followed by the id |
| StreamRoute.Lookup | src/app/api/stream/route.ts:59-72 | a missing or empty id gives 400 'Stream ID is required'; an unknown id gives 404 'Stream not found'; a known one gives its title, frame count and rate; the status is 200 exactly in the last case |
| StreamRoute.Reaped | src/app/api/stream/route.ts:13-19 | the reaped table keeps exactly the entries created no more than one hour before `now`, each with its value unchanged |
| StreamRoute.ReapIdempotent | src/app/api/stream/route.ts:13-19 | reaping again at the same time removes nothing more |
| StreamRoute.ReapLaterKeepsLess | src/app/api/stream/route.ts:13-19 | a later reap keeps a subset of an earlier one, and reaping early then late equals reaping late |
| StreamRoute.StreamLifetime | src/app/api/stream/route.ts:14-16 | an entry survives every reap up to one hour after its creation and is removed by any later one |
| StreamRoute.CreateThenGet | src/app/api/stream/route.ts:30-36 | after a POST, and any reap within the hour, GET on the new id returns the stored title, the number of frames and the stored rate |
| StreamRoute.PostAddsOne | src/app/api/stream/route.ts:30-36 | a POST under a fresh id adds exactly one entry and leaves every other entry unchanged |
| StreamRoute.StreamStore.constructor | src/app/api/stream/route.ts:5-10 | the table starts empty |
| StreamRoute.StreamStore.Post | src/app/api/stream/route.ts:22-44 | a body without a non-empty frames array gives 400 'Frames are required' and leaves the table unchanged; otherwise the table gains the new entry under the id and the answer carries the id, the terminal command and the web link |
| StreamRoute.StreamStore.Get | src/app/api/stream/route.ts:55-72 | GET answers as `Lookup` on the current table and changes nothing |
| StreamRoute.StreamStore.Reap | src/app/api/stream/route.ts:13-19 | after the reaper's pass over every entry the table is exactly the reaped table |
| FileDropZone.ValidationError | src/app/components/FileDropZone.tsx:13-23 | a file is accepted exactly when its type starts with 'video/' and its size is at most 100 MiB; a wrong type gets 'Please select a valid video file.', and a video that is too large gets 'File size exceeds 100MB limit.' |
| FileDropZone.TypeCheckedFirst | src/app/components/FileDropZone.tsx:13-21 | a non-video file gets the type message whatever its size |
| FileDropZone.SizeLimitInclusive | src/app/components/FileDropZone.tsx:18-21 | a video of exactly 100 MiB is accepted; one byte more is rejected with the size message |
| FileDropZone.BareVideoRejected | src/app/components/FileDropZone.tsx:14 | a type shorter than the prefix, such as 'video', is not a video type |
| FileDropZone.DropZone.constructor | src/app/components/FileDropZone.tsx:10-11 | the zone starts neither highlighted nor busy, with no callback calls |
| FileDropZone.DropZone.ValidateFile | src/app/components/FileDropZone.tsx:13-23 | the result is true exactly when the file is acceptable; a rejection reports exactly one message to `onError`; nothing else changes |
| FileDropZone.DropZone.HandleFile | src/app/components/FileDropZone.tsx:25-31 | `onFileSelect` receives the file if and only if it is acceptable, and the zone is then busy; a rejected file only reports its message |
| FileDropZone.DropZone.HandleDrop | src/app/components/FileDropZone.tsx:33-41 | the drag highlight is cleared; only the first dropped file is handled; an empty drop makes no callback call |
| FileDropZone.DropZone.HandleFileInput | src/app/components/FileDropZone.tsx:53-58 | only the first chosen file is handled; no file list, or an empty one, makes no callback call |
| HomePage.FileUpdates | src/app/page.tsx:15-24 | the page issues one update for a chosen file: it sets the file when the file is acceptable, and otherwise sets the drop zone's message for it |
| HomePage.SameVerdictAsDropZone | src/app/page.tsx:16-24 | the page's nested checks accept and reject the same files, with the same messages, as `validateFile` |
| HomePage.Home.constructor | src/app/page.tsx:6-7 | no video file and no error at first |
| HomePage.Home.HandleFileChange | src/app/page.tsx:12-26 | the error is cleared first; with no file that is the only update; otherwise an acceptable first file becomes `videoFile` and leaves the error clear, and any other sets the error that says why |

## Left out

- FFmpeg itself is not modelled: loading, `writeFile`, `exec` and `fetchFile`. The engine is a parameter that says whether it is loaded, whether each step fails with which message, and what frame store an extraction leaves for a rate, a width and an optional cap. The probe run's own result is not used by the source.
- A failed `exec` in the chunked path reaches the caller as "Failed to process video: " and the cause; the probe run's failure is passed on unwrapped (`ProbeFailed`). The model keeps only the cause string of each error.
- PNG decoding and canvas resampling are browser work. A decoded image is its natural size, which is positive, together with the RGBA buffer that `drawImage` and `getImageData` leave for each canvas size. A frame that never decodes would leave `image.onload` waiting forever; this is not modelled.
- The DOMException `getImageData` throws for a canvas with no pixels is modelled by its name, IndexSizeError. The browser's message text is not modelled.
- When one conversion of a batch rejects, `Promise.all` rejects, and so does the whole chunked conversion. The frames converted in earlier batches are dropped. The model returns the error, together with the progress reported up to then. The conversions of the batch that are still running, and their own rejections, are not modelled.
- Rasterizer.CanvasHeight: requires a positive image width, because the source divides by it and a zero width yields a non-finite height.
- Brightness and the canvas height are exact. The source computes `(r + g + b) / 3 / 255 * (len - 1)` and `image.height * (width / image.width)` in IEEE doubles, and that rounding is not modelled. Where the exact value is an integer or a half, the two can differ. With r + g + b = 425 on the low ramp, the exact index is 5 ('+'), while the double product falls just below 5 and picks index 4 ('='). A 496×155 image at width 200 has the exact height 62.5, which rounds to 63, while the double product falls just below 62.5 and rounds to 62.
- Glyphs.GetAsciiChar: requires a brightness in [0, 255]. The source returns `undefined` outside that range, and every caller passes a mean of three bytes, which is always in range.
- The frames inside a batch are converted one after another. `Promise.all` runs them concurrently but keeps their order, so the result is the same.
- The 10 ms `setTimeout` yield between batches, the reaper's five-minute `setInterval` schedule and the drop zone's one-second reset of `isProcessing` are not modelled.
- `uuidv4()` and `Date.now()` are parameters of `Post`; the reap time is a parameter of `Reap`. `Post` does not require a fresh id, because `Map.set` overwrites; `PostAddsOne` states the fresh-id case.
- JSON parsing of the request body, `NextResponse` and the 500 catch-all are not modelled. A posted body is a `Payload` whose frames are missing or falsy, a truthy non-array, or an array of strings. A NaN frame rate, and non-string frames or titles, are not represented.
- The reaper deletes entries while `forEach` visits the map. This is modelled as a pass over the keys present when it starts, which is what `Map.prototype.forEach` does when only the visited entry is deleted.
- The terminal-script route, src/app/api/terminal/[streamId]/route.ts, is not part of this model. That file declares a second `videoStreams` map of its own, never filled, so the `terminalUrl` the model returns points at a route that cannot see the streams this table holds.
- Network code (the YouTube download route and its callers) and the UI-only components (`AsciiPlayer`, `StreamShare`, rendering, drag-over highlighting on `handleDragOver` and `handleDragLeave`) are not part of this model.
- The commented-out `getVideoFrameRate` is not modelled.
- Console logging is not modelled.
