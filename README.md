# Tubely upload handlers, modelled in Dafny

This project models the two upload handlers of the Tubely video service:

- `handlerUploadVideo` (`handler_upload_video.go`). It checks who uploads the video and that they own it. It stages an mp4 upload in a temp file and classifies the aspect ratio the media prober reports. It stores the file in an S3 bucket under a fresh key and writes the object's URL back to the video's record.
- `handlerUploadThumbnail` (`handler_upload_thumbnail.go`). It checks the same identity and ownership. It writes the uploaded image into the assets directory and records the URL it is served at.

It also models `getVideoAspectRatio` and the strings the handlers build:

- the extension taken from the media type;
- the object key `<directory>/<base64url token>.<ext>`;
- the S3 URL;
- the asset path and the thumbnail URL;
- from the standard library: `strings.Split`, `base64.RawURLEncoding` and `filepath.Join`/`Clean`.

## How the handlers are modelled

Each handler is a `method` that does what the Go function does, in the same order, with the same early returns and the same status codes and messages. The handler's effects become a trace (`Api.Effect`):

- opening the form file;
- creating, writing, rewinding, closing and removing the temp file;
- running the prober;
- `PutObject`;
- `UpdateVideo`;
- creating and writing the asset file.

Go's `defer` is an explicit stack (`deferred`). Steps push onto it, and every return appends it to the trace, most recent first, as Go runs deferred calls.

Every call into code outside the model whose error the handler checks is an input. This covers the UUID parse, the JWT checks, the form file, the media-type parse, the database, the creation of and copy into the temp and asset files, `crypto/rand`, the prober's output and S3. Each is one field of the request datatype (`VideoRequest`, `ThumbnailRequest`). The calls whose errors the handler ignores (the rewind, the deferred closes and the removal of the temp file) are effects that always succeed.

Each method is proved against a specification: a step table that lists the handler's checks in order.

- `Passes` says whether a step succeeds for a request.
- `OnFailure` gives the response its failure sends.
- `StepEffects` and `Deferred` give what an attempt does and what it defers.
- `Run` and `Trace` give the effects of the whole request.
- `VideoResponse` and `ThumbnailResponse` give the response: the first failing step's response, or 200 with the updated record.

The table is stated for an arbitrary `Plan`: the key (or asset path) and the record that the store and update steps write. `PlanOf` is the plan a request fixes. The handler methods follow `PlanOf`. The properties of the table (cleanup, provenance of writes, what success means) are proved in the `*Facts` modules.

Go's `int` is 64-bit: `16*height/9` is computed with explicit two's-complement wrap-around (`AspectRatio.Wrap`) and a quotient truncated toward zero (`AspectRatio.Quot`). Indexing the split media type with `[1]` panics when the type has no `/`. Go's HTTP server recovers that panic and drops the connection. The model gives this as the response `Aborted`, and the deferred calls still run.

### Where the code differs from its description

The model follows the code:

- A failed metadata lookup answers 500 ("Couldn't find video metadata"), not 404.
- A media type that does not parse answers 400 with the message "Invalid ID".
- The extension is split off the media type before the mp4 check. So a media type without `/` panics (`Aborted`) instead of answering 400 "Invalid file upload".
- The thumbnail handler splits the raw `Content-Type` header, not a parsed media type. An empty header also panics.
- There is no separate "payload too large" answer. `r.FormFile` reads the whole multipart body through the 1 GiB `MaxBytesReader`, so a larger body makes the form read fail with 400 "Unable to parse video file". The copy into the temp file reads the part that is already buffered; its failure (500 "Couldn't write video data") stands for write errors of the temp file, not for the cap.
- The thumbnail handler answers 400 when the record update fails. Its lookup message reads "Unabel to fetch video metadata". Both are kept as written.
- The random name is 32 bytes, so its token is always 43 characters, never 22.
- The thumbnail handler reads the form file before it looks the video up, so a non-owner's request opens and closes the part. The video handler checks ownership first, so a non-owner's request has no effect at all.

## Model

| member | source | states |
|---|---|---|
| UploadVideo.HandleUploadVideo | handler_upload_video.go:21-156 | the handler's response is the step table's response (first failing step's status and message, or 200 with the updated record) and its effects are the table's trace |
| UploadVideo.Authorize | handler_upload_video.go:25-60 | the ID, token, validation, lookup and ownership checks answer as the table says and have no effect; on success the looked-up record is returned |
| UploadVideo.ReadUpload | handler_upload_video.go:62-68 | reading the form file answers 400 on failure; on success the part is opened and its close is deferred |
| UploadVideo.CheckMediaType | handler_upload_video.go:70-84 | an unparsable media type answers 400 "Invalid ID", one without `/` aborts, any type but `video/mp4` answers 400; the extension returned is the media type's second field |
| UploadVideo.StageUpload | handler_upload_video.go:86-100 | the temp file is created, its close and removal deferred (close first), and the upload copied into it, each failure answering 500 |
| UploadVideo.NameObject | handler_upload_video.go:102-111 | the temp file is rewound whatever happens, and a failed random read answers 500 |
| UploadVideo.KeyObject | handler_upload_video.go:113-131 | the prober is run; an undecodable output answers 500, otherwise the key built is the planned key for the request |
| UploadVideo.Store | handler_upload_video.go:133-155 | the upload puts the planned key with the media type, the record update writes the record with the object's URL, and the response is 200 with that record |
| UploadVideo.OnFailure | handler_upload_video.go:29-153 | the status and message each failing check answers with, or `Aborted` for the split's panic; the handlers' `Authorize`, `ReadUpload`, … return exactly these |
| UploadVideo.PlannedKey | handler_upload_video.go:78-131 | there is a key exactly when the media type has a `/`, the random read succeeded and the prober's output decoded; `Mp4Key` and `StoredAsPlanned` state which key it is |
| UploadVideo.PublishedRecord | handler_upload_video.go:145-147 | there is a record to publish exactly when the lookup and the key succeeded; it is the looked-up one with the video URL of the key |
| UploadVideo.VideoResponse | handler_upload_video.go:29-155 | the first failing step's response, or 200 with the published record; `Succeeds` and `AbortsExactly` state when each happens |
| UploadVideo.FailedIsFirstFailure | handler_upload_video.go:29-155 | the step the response names is the first one that fails, and every step before it passes |
| UploadVideoFacts.NothingBeforeTheForm | handler_upload_video.go:25-67 | a request has no effect exactly when a check up to and including the form read fails |
| UploadVideoFacts.NonOwnerRejected | handler_upload_video.go:56-60 | an authenticated caller who does not own the video gets 401 "User not authorized" and the handler has no effect |
| UploadVideoFacts.CleanedUp | handler_upload_video.go:68-93 | on every exit the uploaded part is not left open, and the temp file is neither left open nor left on disk |
| UploadVideoFacts.PendingShape | handler_upload_video.go:68-93 | the defer stack holds the temp file's close and removal once it exists, and the part's close once it is open, in Go's last-in first-out order |
| UploadVideoFacts.Outcome | handler_upload_video.go:29-155 | a request's effects are those of the passing steps, then the failing step's attempt, then the deferred calls |
| UploadVideoFacts.Provenance | handler_upload_video.go:134-152 | every S3 put and record update is the planned one, made only by a step the handler reached |
| UploadVideoFacts.StoredAsPlanned | handler_upload_video.go:78-143 | an object is stored only after the mp4 check, in the configured bucket, as `video/mp4`, under a key that reads back as the ratio's directory, the token of the random name and `mp4` |
| UploadVideoFacts.StoredOnce | handler_upload_video.go:133-143 | once the upload step passes, the trace holds the successful put of the planned key |
| UploadVideoFacts.UpdateAfterStore | handler_upload_video.go:133-152 | a record update happens only when the put succeeded, writes the planned record, and comes after the successful put of the planned object in the trace |
| UploadVideoFacts.PutBeforeUpdate | handler_upload_video.go:133-152 | once the update step is reached under a key, the successful put of the planned object precedes every record update in the trace |
| UploadVideoFacts.UpdatedAsPlanned | handler_upload_video.go:133-152 | the record written back is the looked-up one with only its video URL changed, to the URL of an object whose successful put comes earlier in the trace |
| UploadVideoFacts.WrittenBack | handler_upload_video.go:145-155 | when every step passes, the 200 response carries the record that was written back |
| UploadVideoFacts.Succeeds | handler_upload_video.go:29-155 | the handler answers 200 exactly when every step passes, and the body is a record written back successfully |
| UploadVideoFacts.AbortsExactly | handler_upload_video.go:77-78 | the handler panics exactly when the checks before the split pass and the media type has no `/` |
| UploadThumbnail.HandleUploadThumbnail | handler_upload_thumbnail.go:15-85 | the handler's response is the step table's response and its effects are the table's trace |
| UploadThumbnail.Authorize | handler_upload_thumbnail.go:16-59 | the ID, token, validation, form file, lookup and ownership checks answer as the table says; the part is opened and its close deferred |
| UploadThumbnail.Store | handler_upload_thumbnail.go:61-84 | the asset file is created and written at the planned path, the record gets the thumbnail URL, an update failure answers 400, success answers 200 with the record |
| UploadThumbnail.OnFailure | handler_upload_thumbnail.go:17-81 | the status and message each failing check answers with, or `Aborted` for the split's panic; the handler's `Authorize` and `Store` return exactly these |
| UploadThumbnail.PublishedRecord | handler_upload_thumbnail.go:61-76 | there is a record to publish exactly when the lookup succeeded, the video ID parsed and the content type has a `/`; it is the looked-up one with the thumbnail URL |
| UploadThumbnail.ThumbnailResponse | handler_upload_thumbnail.go:17-84 | the first failing step's response, or 200 with the published record; `Succeeds` and `AbortsExactly` state when each happens |
| UploadThumbnail.FailedIsFirstFailure | handler_upload_thumbnail.go:17-82 | the step the response names is the first one that fails, and every step before it passes |
| UploadThumbnailFacts.NonOwnerRejected | handler_upload_thumbnail.go:56-59 | a caller who does not own the video gets 401 "Not allowed" after the part was opened and closed, and nothing else happens |
| UploadThumbnailFacts.StoppedAtOwner | handler_upload_thumbnail.go:41-59 | stopped by the ownership check, the handler has only opened and closed the part |
| UploadThumbnailFacts.UploadClosed | handler_upload_thumbnail.go:41-46 | on every exit the uploaded part is closed once it was opened |
| UploadThumbnailFacts.Provenance | handler_upload_thumbnail.go:61-79 | every asset-file write and record update is the planned one, made only by a step the handler reached |
| UploadThumbnailFacts.AssetAsPlanned | handler_upload_thumbnail.go:56-69 | the asset file is touched only for the video's owner, at `<videoID>.<ext>` directly inside the cleaned assets directory |
| UploadThumbnailFacts.AssetWritten | handler_upload_thumbnail.go:61-73 | once the copy step passes, the asset file was created and written at the planned path |
| UploadThumbnailFacts.UpdateAfterCopy | handler_upload_thumbnail.go:61-79 | a record update happens only when the create and the copy succeeded, and comes after the asset file was created and then written at the planned path |
| UploadThumbnailFacts.WriteBeforeUpdate | handler_upload_thumbnail.go:61-79 | once the update step is reached under a path, the creation and then the write of the asset file precede every record update in the trace |
| UploadThumbnailFacts.UpdatedAsPlanned | handler_upload_thumbnail.go:61-79 | the record written back is the looked-up one with only its thumbnail URL changed, to the URL of the asset file, which was created and then written earlier in the trace |
| UploadThumbnailFacts.WrittenBack | handler_upload_thumbnail.go:76-84 | when every step passes, the 200 response carries the record that was written back |
| UploadThumbnailFacts.Succeeds | handler_upload_thumbnail.go:17-84 | the handler answers 200 exactly when every step passes, and the body is a record written back successfully |
| UploadThumbnailFacts.AbortsExactly | handler_upload_thumbnail.go:62 | the handler panics exactly when the checks before the split pass and the content type has no `/` |
| AspectRatio.GetVideoAspectRatio | handler_upload_video.go:172-191 | an undecodable prober output is an error; otherwise the result is the classification of the last video stream, one of "16:9", "9:16" and "other" |
| AspectRatio.LastVideo | handler_upload_video.go:178-184 | the dimensions of the last stream whose codec type is `video`, 0x0 without one; `VideoDimensions`, `LastVideoIsLastMatch` and `NoVideoStream` state its meaning |
| AspectRatio.RatioOf | handler_upload_video.go:172-191 | no ratio for an undecodable output, otherwise the classification of the last video stream; `GetVideoAspectRatio` states its range |
| AspectRatio.VideoDimensions | handler_upload_video.go:178-184 | the loop leaves the dimensions of the last video stream, or 0x0 when there is none |
| AspectRatio.LastVideoIsLastMatch | handler_upload_video.go:179-184 | the dimensions kept are those of the video stream with no video stream after it |
| AspectRatio.NoVideoStream | handler_upload_video.go:178-187 | without a video stream the dimensions stay 0x0, which classifies as "16:9" |
| AspectRatio.Wrap | handler_upload_video.go:186-188 | Go's 64-bit multiplication agrees with the mathematical product modulo 2^64 and equals it when it fits |
| AspectRatio.Quot | handler_upload_video.go:186-188 | Go's division truncates toward zero: the remainder lies between the divisor and zero with the dividend's sign |
| AspectRatio.Scaled | handler_upload_video.go:186-188 | Go's `16*x/9` on 64-bit integers: the product wraps, the quotient truncates toward zero; `LandscapeMeaning`, `PortraitMeaning` and `OverflowSample` state what it gives |
| AspectRatio.Classify | handler_upload_video.go:186-191 | the ratio test gives one of "16:9", "9:16" and "other" |
| AspectRatio.LandscapeMeaning | handler_upload_video.go:186-187 | for a height from 0 up to `MaxDimension`, "16:9" holds exactly when `9*width <= 16*height < 9*width + 9` |
| AspectRatio.PortraitMeaning | handler_upload_video.go:188-189 | for dimensions from 0 up to `MaxDimension`, "9:16" holds exactly when the frame is not "16:9" and `9*height <= 16*width < 9*height + 9` |
| AspectRatio.ExactRatios | handler_upload_video.go:186-189 | frames of exactly 16:9 classify as "16:9" and of exactly 9:16 as "9:16" |
| AspectRatio.RatioSamples | handler_upload_video.go:186-189 | 1920x1080 and 1280x720 are "16:9"; 1080x1920 and 720x1280 are "9:16" |
| AspectRatio.OtherSamples | handler_upload_video.go:186-191 | a square frame and the near-16:9 sizes 1366x768 and 854x480 classify as "other" |
| AspectRatio.OverflowSample | handler_upload_video.go:186-187 | a height of 2^60 wraps `16*height` to 0, so a zero-width frame classifies as "16:9" |
| AspectRatio.Directory | handler_upload_video.go:120-127 | "16:9" goes to `landscape`, "9:16" to `portrait`, and every other string to `other` |
| StorageKey.Extension | handler_upload_video.go:78 | the media type's second `/`-separated field, absent (Go's index panic) when there is no `/`; `ExtensionExists` and `ExtensionOfType` state its meaning |
| StorageKey.ExtensionExists | handler_upload_video.go:78 | the media type has an extension exactly when it contains `/`, and the extension contains none |
| StorageKey.ExtensionOfType | handler_upload_video.go:78 | the extension of `type/subtype` is `subtype` |
| StorageKey.Mp4Extension | handler_upload_video.go:78-81 | the extension of `video/mp4` is `mp4` |
| StorageKey.ObjectKey | handler_upload_video.go:129-131 | `<directory>/<token>.<ext>`; `ParseObjectKey` and `ObjectKeyInjective` state that it loses nothing |
| StorageKey.VideoKey | handler_upload_video.go:120-131 | the object key under the ratio's directory; `VideoKeyShape` and `Mp4KeyParts` state its shape |
| StorageKey.ParseObjectKey | handler_upload_video.go:129-131 | a key reads back as the directory, the token and the extension it was built from, and the token decodes to the random bytes |
| StorageKey.ObjectKeyInjective | handler_upload_video.go:106-131 | keys built from different directories, random names or extensions differ |
| StorageKey.VideoKeyShape | handler_upload_video.go:120-131 | a video key starts with its ratio's directory, holds a 43-character URL-safe token and ends with `.` and the extension |
| StorageKey.Mp4KeyParts | handler_upload_video.go:129-131 | an mp4 key reads back as its ratio's directory, the token of the random name and `mp4` |
| StorageKey.S3Url | handler_upload_video.go:146 | the bucket's regional `https` endpoint followed by the key; `S3UrlInjective` states that it names one key |
| StorageKey.S3UrlInjective | handler_upload_video.go:146 | within one bucket and region, the object URL determines the key: different keys give different URLs |
| StorageKey.AssetPath | handler_upload_thumbnail.go:61-63 | `filepath.Join` of the assets directory and the video ID, then `.` and the extension; `AssetPathInRoot` states where it lands |
| StorageKey.AssetPathInRoot | handler_upload_thumbnail.go:61-63 | the thumbnail's path is `<videoID>.<ext>` directly inside the cleaned assets directory |
| StorageKey.ThumbnailUrl | handler_upload_thumbnail.go:75 | `http://localhost:<port>/assets/<videoID>.<ext>`; `ThumbnailUrlInjective` states that it names one asset |
| StorageKey.ThumbnailUrlInjective | handler_upload_thumbnail.go:75 | on one port, the thumbnail URL determines the video ID and the extension |
| Base64Url.Encode | handler_upload_video.go:131 | the encoding has the unpadded length (four characters per three bytes, plus two or three for a remainder) and uses only the URL-safe alphabet |
| Base64Url.DecodeEncode | handler_upload_video.go:131 | decoding the encoding of any bytes gives them back |
| Base64Url.EncodeInjective | handler_upload_video.go:131 | different byte strings never share an encoding |
| Base64Url.TokenShape | handler_upload_video.go:106-131 | 32 random bytes encode to 43 URL-safe characters, none of them `=`, `/` or `.` |
| Strings.Split | handler_upload_video.go:78 | a split has at least one field and no field contains the separator |
| Strings.JoinSplit | handler_upload_video.go:78 | joining the fields of a split with the separator gives back the original string |
| Strings.SecondFieldExists | handler_upload_video.go:78 | there is a second field exactly when the separator occurs, and it is the text between the first separator and the next one or the end |
| Strings.Field | handler_upload_thumbnail.go:62 | indexing a field exists exactly when the index is below the field count, and the field contains no separator |
| FilePath.Clean | handler_upload_thumbnail.go:61 | Go's lexical `filepath.Clean`: `.` for the empty path, otherwise the surviving elements after `Resolve`, rooted when the path is |
| FilePath.JoinPath | handler_upload_thumbnail.go:61 | Go's `filepath.Join` of two elements: the cleaned join, skipping an empty directory, empty when both are; `JoinPlainName` states its result for a plain name |
| FilePath.JoinPlainName | handler_upload_thumbnail.go:61 | joining a directory with a plain name gives the cleaned directory with the name appended |
| FilePath.Resolve | handler_upload_thumbnail.go:61 | the elements that survive cleaning are never empty, never `.` and contain no `/` |
| Api.UuidCharacters | handler_upload_thumbnail.go:61 | a UUID's text is 36 characters with no `/` and no `.` |
| Api.ClosedAtExit | handler_upload_video.go:68-93 | closing the temp file, removing it and closing the part leave neither open and no temp file on disk, whatever came before |
| Api.NeverAcquired | handler_upload_video.go:86-93 | a file that is never created or opened in a trace is not open (and, for the temp file, not on disk) after it |

## Left out

- HTTP plumbing is not modelled: the path value, the headers, `MaxBytesReader`, `ParseMultipartForm` (its error is ignored in the source) and the JSON encoding of responses. A response is its status with its message or its record.
- `uuid.Parse`, `auth.GetBearerToken`, `auth.ValidateJWT` and `mime.ParseMediaType` are foreign calls. Their results are fields of the request.
- The database (`GetVideo`, `UpdateVideo`), the OS file calls, `crypto/rand` and the S3 client are I/O. The outcome of each call whose error the handler checks is an input, and the call appears in the trace with that outcome.
- UploadVideoFacts.CleanedUp and UploadThumbnailFacts.UploadClosed: the deferred `videoFile.Close`, `tempFile.Close` and `os.Remove` (handler_upload_video.go:68, 92-93) and the thumbnail's `file.Close` (handler_upload_thumbnail.go:46) ignore their errors in the source, and the model has them always succeed. So these lemmas show that the closes and the removal are called on every exit, not that they succeeded.
- The bytes copied into the temp file, the asset file and S3 are not modelled. The trace records that a write happened, not its content.
- Running `ffprobe` and the JSON decoding of its output are external. The model starts from the decoded output: `Unparsable` when decoding failed, which also covers the empty output of a prober that could not run, since the source ignores `cmd.Run`'s error. Widths and heights are 64-bit, as JSON decoding into Go's `int` requires.
- AspectRatio.GetVideoAspectRatio: starts from the decoded prober output, not from a file path, because running the prober is I/O.
- The rewind of the temp file ignores its error in the source. It is a `RewindTemp` effect that cannot fail.
- The thumbnail handler never closes the asset file it creates. The model has no close for it either, so its traces show the file created and written but never closed.
- The thumbnail handler's `fmt.Println` logging and the loggers behind `respondWithError` are output only. They are left out.
- Concurrent requests are not modelled: each handler runs one request, as the Go server does per goroutine.
- Base64Url.Decode is not called by the source. It exists only as the partner of `Encode`, to prove that the token loses none of the random bytes.
