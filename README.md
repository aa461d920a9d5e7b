# videoToAudio — a Dafny model of its two request handlers

The repository runs two small HTTP services.

- `server.js` is the conversion service. `POST /convert` downloads a video to a file named after a fresh UUID, has ffmpeg extract its audio as MP3 into the `audio` directory, deletes the video, and answers with the URL that `/audio/<name>` serves the file under.
- `asr.js` is the recognition service. `POST /recognize` submits the media URL to Tencent Cloud ASR as a recording-recognition task. It then starts a status query every 3 seconds until one settles or 60 status replies have come back, and answers with the transcript.

Both services answer with the same JSON envelope: `thoughts`, an optional `error`, and `tool_calls`.

The model has four modules.

- `Js` (js.dfy): optional properties, rejected promises (`Result`, which keeps the Error's `message`), JavaScript truthiness of strings, `a || b`, template-literal rendering of `undefined`, and the decimal rendering of a number. That rendering comes with a parser and a round-trip lemma.
- `Envelope` (envelope.dfy): the reply envelope and its two `tool_calls` variants.
- `Asr` (asr.dfy): `createRecTask` as a function of the SDK's reply. The poller is a `while` loop, one iteration per interval tick. It keeps the source's `attempts` counter, a flag for the cleared interval, and the promise's settle-once state. The loop is proved equal to the recursive function `Poll`, and the properties below are lemmas about `Poll`. `/recognize` is a function of the submission reply and the status-query replies.
- `Server` (server.dfy): file-name, path and URL derivation. `downloadVideo` and `extractAudio` change a set of existing paths. They appear twice: as the functions `Download` and `Extract`, and as methods of a `Disk` class that updates its `files` field in place. `/convert` is the function `Convert`, and the method `HandleConvert` runs the same steps against a `Disk`.

Collaborators become inputs:

- the SDK's reply to task creation;
- the sequence of replies to the successive status queries;
- the HTTPS outcome: `https.get` throwing at once, a status code, or a network error;
- the ffmpeg outcome: `end` and whether unlinking the input succeeded, or `error`;
- the generated UUID;
- `__dirname`;
- the request headers and `req.protocol`;
- the already-formatted `size_mb` string.

Behaviour of the code that the model keeps:

- A download answered with a status other than 200 rejects but leaves in place the file that `fs.createWriteStream` already created (server.js:39-44).
- `https.get` throws synchronously on a URL it cannot request, such as an `http:` URL or a malformed one. The promise then rejects with that error, and the file the write stream already created stays, because the `error` handler that unlinks it is never attached (server.js:39-41).
- With `maxAttempts` of 0 or less, the code still makes one query, because the attempt check comes after the first query (asr.js:95-96). `Limit` captures this.
- A status reply without `Data` makes `result.Data.Status` throw a TypeError inside the poller's `try`. Polling then stops with that error. The model uses V8's message for it as a constant.

## Model

| member | source | states |
|---|---|---|
| `Asr.CreateRecTask` | asr.js:29-52 | Returns the task id exactly when the reply, its `Data` and its `TaskId` are all truthy, and that id is non-zero. If the SDK call threw, its error passes through. Any other reply gives the format error quoting the reply's JSON. |
| `Asr.PollTaskResult` | asr.js:74-106 | The loop keeps the source's counter, interval clearing and settle-once promise, and is proved to give exactly the outcome and the number of queries of `Poll` for the same replies. |
| `Asr.PollFrom` | asr.js:77-104 | From query i on, the poller makes at least one more query and never more than the attempt limit. |
| `Asr.QueryFailure` | asr.js:55-71 | A status query fails exactly when the SDK threw, the reply is falsy or it has no `Data`. The SDK's error passes through, a falsy reply gives the format error quoting it, and a missing `Data` gives the TypeError that reading `result.Data.Status` raises (asr.js:83). |
| `Asr.Settles` | asr.js:80-103 | A failing query settles the poller with that error. Otherwise status 2 resolves with the reply's `Data`, status 3 rejects with `识别任务失败: ` and `ErrorMsg` or `未知错误`, and any other status leaves it pending. One reply alone never gives the timeout. |
| `Asr.FirstSettlingReplyWins` | asr.js:83-99 | If every query before position k is pending and query k settles, that query's outcome is the result, after exactly k+1 queries. This holds even when k+1 is the attempt limit: the reply settles the promise before the timeout rejection can. |
| `Asr.SuccessAtFirstTerminal` | asr.js:83-85 | Status 2 at the first settling position k resolves with that reply's `Data`, after k+1 queries. |
| `Asr.FailureAtFirstTerminal` | asr.js:86-90 | Status 3 at the first settling position rejects with `识别任务失败: ` followed by `ErrorMsg`, or by `未知错误` when `ErrorMsg` is missing or empty, after k+1 queries. |
| `Asr.QueryErrorStopsPolling` | asr.js:55-103 | A query error stops polling at that query and rejects with that error. A query error is: the SDK threw; the reply is falsy (format error quoting it); or the reply has no `Data` (TypeError). |
| `Asr.TimesOutAfterMaxAttempts` | asr.js:95-99 | If no allowed query settles, the poller rejects with the timeout after exactly the maximum number of queries. |
| `Asr.PollOutcomeCharacterized` | asr.js:77-104 | In every run, 1 to limit queries are made, and every query but the last is pending. The outcome is a timeout exactly when the last query was pending at the limit. Otherwise the last query's reply decides the outcome. |
| `Asr.NoQueriesAfterSettling` | asr.js:84-101 | Two reply sequences that agree on the queries actually made give the same run: nothing after the settling query is consulted. |
| `Asr.Recognize` | asr.js:116-157 | The reply is 400 exactly when `videoUrl` is falsy; then it has no `error`, `tool_calls` is empty and no task is submitted or queried. A truthy URL submits one task with the fixed `RecTaskRequest` parameters (16k_zh, 1 channel, text format 0, source type 0, the URL). A 200 carries `视频音频转文字完成`, no `error`, and exactly one `text` call with status `success` and the created task's id. A 500 carries empty `tool_calls` and, as its error, the message of the submission's rejection when submission failed, or else of the poller's rejection: the `识别任务失败: …` failure, `任务超时`, or the query error. A failed submission makes no status queries; otherwise exactly the poller's queries are made, at most 60. |
| `Asr.RecognizeSuccess` | asr.js:129-148 | The reply is 200 exactly when the URL is truthy, the submission gave a task id and polling succeeded. The content is then the `Result` of the reply that had status 2, or `无识别结果` when it is missing or empty. |
| `Asr.RecognizeReportsProviderFailure` | asr.js:133-156 | If the first status reply is status 3 with `ErrorMsg` "bad audio", the answer is 500 with error `识别任务失败: bad audio` and empty `tool_calls`, after a single query. |
| `Js.ParseDecimalOfDecimal` | server.js:43 | The decimal rendering of a status code in the template literal can be parsed back to the same number. |
| `Server.StatusCodeInMessage` | server.js:42-44 | The non-200 rejection message is `视频下载失败，状态码: ` followed by the decimal digits of the status code, and those digits read back as the code. |
| `Server.Download` | server.js:34-59 | The download fulfils exactly on status 200. Any response leaves the output file created by the write stream. A non-200 status rejects with the status message. A network error rejects with its own error and removes the partial file. A request that `https.get` throws on rejects with that error and leaves the created file. |
| `Server.Extract` | server.js:62-81 | The extraction fulfils exactly on ffmpeg `end`. The output then exists, and the input is gone exactly when its unlink succeeded; the unlink never affects the result. On `error` the tool's error passes through and the files stay as they were. Paths other than the input and the output never change. |
| `Server.Disk.DownloadVideo` | server.js:34-59 | The in-place download updates the disk's files and returns exactly as `Download` says. |
| `Server.Disk.ExtractAudio` | server.js:62-81 | The in-place extraction updates the disk's files and returns exactly as `Extract` says. |
| `Server.PathsShareBaseName` | server.js:97-99 | The video path in the app directory and the audio path in `audio/` both have the generated id as their base name, with `.mp4` and `.mp3`. |
| `Server.PathsNeverCollide` | server.js:97-99 | Video paths are equal exactly when the ids are, and so are audio paths. A video path never equals an audio path. |
| `Server.AudioUrlNamesAudioFile` | server.js:110-113 | The audio URL starts with `x-forwarded-proto` (or `req.protocol` if that is falsy) and `://`. Next comes `x-forwarded-host` (or the Host header, `undefined` if absent). It ends with `/audio/<id>.mp3`, and the static server maps that path to the path the audio was written to. |
| `Server.Convert` | server.js:84-137 | The reply is 400 exactly when `videoUrl` is falsy; then it carries `请提供视频URL` and empty `tool_calls`, and no file changes. The reply is 200 exactly when the download returned 200 and ffmpeg ended; then `tool_calls` is exactly one `audio` call with the audio URL, format `mp3` and name `<id>.mp3`. The 200 carries `视频已成功转换为音频文件` and no `error`. Every other case is a 500 with an error and empty `tool_calls`; when ffmpeg fails after a successful download, that error is ffmpeg's message. When the download got any response but the conversion did not succeed, exactly the video file is added. |
| `Server.HandleConvert` | server.js:84-137 | Running the handler against a disk gives the reply and the disk contents of `Convert`. |
| `Server.MissingUrlTouchesNothing` | server.js:89-95 | Without a URL the outcomes of download and extraction do not matter and the files are unchanged: nothing is attempted. |
| `Server.ExtractOnlyAfterDownload` | server.js:101-103 | When the download fails, the extraction outcome does not matter, and the reply is the 500 envelope with the download's error. |
| `Server.DownloadStatusReported` | server.js:42-44 | A non-200 download answers 500 with empty `tool_calls`, and the error reads back as the status code. |
| `Server.NetworkErrorRemovesPartialFile` | server.js:54-56 | A network error answers 500 with that error, and the video file does not exist afterwards. |
| `Server.RequestThrowLeavesFile` | server.js:39-41 | When `https.get` throws, the answer is 500 with that error, and the video file the write stream created exists afterwards. |
| `Server.SuccessServesAudioAndDropsVideo` | server.js:103-128 | After a successful conversion the `mp3` call's URL is `proto://host/audio/` plus its name, and the file served for that name exists. The video still exists exactly when its removal failed. |
| `Server.RemovalFailureInvisible` | server.js:69-75 | A failed removal of the video leaves the reply unchanged. |

## Left out

- The Tencent Cloud SDK, its credentials and region (asr.js:9-24, 40, 57). Its replies are inputs instead.
- The `JSON.stringify` rendering of the reply a format error quotes: any submission reply without a truthy `Data.TaskId`, and a falsy status reply. It is an abstract `json` string, not tied to the reply.
- HTTPS streaming and ffmpeg transcoding (server.js:39-53, 65-79). Only their outcomes are modelled.
- ffmpeg's partial output on `error`: the model leaves the file set unchanged in that case.
- `encodeURI` of the video URL (server.js:36), including the URIError it can throw.
- Stream errors after a 200 response, and write-stream errors: the source has no handler for them.
- The asynchronous `fs.unlink` calls (server.js:55, 71-73) are taken as finished once the promise settles. A network error that arrives before the write stream has opened its file can leave the file behind; the model ignores this race.
- Timer timing: the 3000 ms interval. Also the overlapping ticks that `setInterval` with an async callback allows (asr.js:77-104): queries are modelled as strictly sequential. When replies take longer than 3 s, the ticks overlap. More than 60 queries can then be sent, because `attempts` only counts replies that have come back (asr.js:95). And whichever reply returns first can settle the promise ahead of a query sent earlier. The bound of 60 queries in `Asr.Recognize` and `Asr.PollOutcomeCharacterized` holds only for sequential replies.
- `size_mb` (server.js:106-108): `fs.statSync` and the floating-point `toFixed(2)`. The formatted size is an input, and a failing `statSync` is not modelled.
- UUID generation (server.js:97): the id is an input.
- `path.join` normalisation: `Join` concatenates with `/`, which is what `path.join` gives for a normalised `__dirname` and a plain file name.
- Request bodies whose `videoUrl` is not a string (numbers, booleans, objects): `videoUrl` is an optional string, truthy when present and non-empty.
- Express middleware, CORS, body parsing, static serving beyond the name-to-path mapping (server.js:12-31, 146), the `GET /` liveness routes, listening and network-interface logging (server.js:149-160, asr.js:160-162), and all console output.
- A `null` `Data` in a status reply: V8's message for it says "of null" instead of "of undefined"; the model uses the `undefined` message for both.
- Task ids that are not numbers: a task id is an integer, and 0 is its only falsy value.
