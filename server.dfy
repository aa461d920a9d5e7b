/** The media-conversion service (server.js): the `/convert` handler, which
    downloads a video to a file named after a generated id, extracts its
    audio next to the static `/audio` directory and answers with the URL the
    audio is served under. The network and the transcoder are replaced by
    their outcomes; the file system by the set of paths that exist. */
module Server {
  import opened Js
  import opened Envelope

  type Path = string

  /** `__dirname`: the directory the service runs from, an absolute path
      without a trailing separator. */
  datatype Config = Config(appDir: Path)

  /** `path.join` of a directory and a plain file name. */
  function Join(dir: Path, name: string): Path {
    dir + "/" + name
  }

  function AudioDir(cfg: Config): Path {
    Join(cfg.appDir, "audio")
  }

  function VideoName(id: string): string { id + ".mp4" }
  function AudioName(id: string): string { id + ".mp3" }

  /** Where the video is downloaded to, and where its audio is written: both
      named after the same generated id. */
  function VideoPath(cfg: Config, id: string): Path { Join(cfg.appDir, VideoName(id)) }
  function AudioPath(cfg: Config, id: string): Path { Join(AudioDir(cfg), AudioName(id)) }

  /** The file `express.static(audioDir)` serves for the URL path `/audio/<name>`. */
  function ServedPath(cfg: Config, name: string): Path {
    Join(AudioDir(cfg), name)
  }

  /** The base name of a path `dir/<base><suffix>`. */
  function BaseName(p: Path, dir: Path, suffix: string): string
    requires |dir| + 1 + |suffix| <= |p|
  {
    p[|dir| + 1 .. |p| - |suffix|]
  }

  /** The video and the audio file carry the same base name: the id. */
  lemma PathsShareBaseName(cfg: Config, id: string)
    ensures BaseName(VideoPath(cfg, id), cfg.appDir, ".mp4") == id
    ensures BaseName(AudioPath(cfg, id), AudioDir(cfg), ".mp3") == id
  {
  }

  /** Different ids never share a file, and a video never overwrites an
      audio file. */
  lemma PathsNeverCollide(cfg: Config, a: string, b: string)
    ensures VideoPath(cfg, a) == VideoPath(cfg, b) <==> a == b
    ensures AudioPath(cfg, a) == AudioPath(cfg, b) <==> a == b
    ensures VideoPath(cfg, a) != AudioPath(cfg, b)
  {
    PathsShareBaseName(cfg, a);
    PathsShareBaseName(cfg, b);
    var v, w := VideoPath(cfg, a), AudioPath(cfg, b);
    assert v[|v| - 1] == '4' && w[|w| - 1] == '3';
  }

  // ---------------------------------------------------------------------------
  // The audio URL
  // ---------------------------------------------------------------------------

  /** The parts of a POST /convert request the handler reads. `protocol` is
      Express's `req.protocol`. */
  datatype Request = Request(
    videoUrl: Option<string>,
    forwardedProto: Option<string>,
    forwardedHost: Option<string>,
    hostHeader: Option<string>,
    protocol: string)

  /** `req.headers['x-forwarded-proto'] || req.protocol` */
  function Protocol(req: Request): string {
    OrElse(req.forwardedProto, req.protocol)
  }

  /** `req.headers['x-forwarded-host'] || req.get('host')`, as rendered by a
      template literal. */
  function Host(req: Request): string {
    if Truthy(req.forwardedHost) then req.forwardedHost.value else Template(req.hostHeader)
  }

  function AudioUrl(req: Request, id: string): string {
    Protocol(req) + "://" + Host(req) + "/audio/" + AudioName(id)
  }

  /** The URL prefers the forwarded headers to the request's own protocol and
      Host header, and its path names the audio file, which the static
      server maps back to the path the audio was written to. */
  lemma AudioUrlNamesAudioFile(cfg: Config, req: Request, id: string)
    ensures var proto := if Truthy(req.forwardedProto) then req.forwardedProto.value else req.protocol;
      AudioUrl(req, id)[..|proto| + 3] == proto + "://"
    ensures var host := if Truthy(req.forwardedHost) then req.forwardedHost.value else Template(req.hostHeader);
      AudioUrl(req, id)[|Protocol(req)| + 3 .. |Protocol(req)| + 3 + |host|] == host
    ensures var u := AudioUrl(req, id);
      var suffix := "/audio/" + AudioName(id);
      |suffix| <= |u| && u[|u| - |suffix|..] == suffix
    ensures ServedPath(cfg, AudioName(id)) == AudioPath(cfg, id)
  {
  }

  // ---------------------------------------------------------------------------
  // downloadVideo and extractAudio as changes to the set of existing paths
  // ---------------------------------------------------------------------------

  /** How the HTTPS GET ends: `https.get` throws at once on a URL it cannot
      request (an `http:` URL, a malformed one), or the request is answered
      with a status code, or it fails with a network error. */
  datatype DownloadOutcome =
    | RequestThrew(message: string)
    | Responded(statusCode: nat)
    | NetworkError(message: string)

  /** How ffmpeg ends: `end` (and whether the follow-up unlink of the input
      succeeded) or `error`. */
  datatype ExtractOutcome = Ended(inputRemoved: bool) | ToolError(message: string)

  /** A settled step and the paths that exist afterwards. */
  datatype FsStep = FsStep(result: Result<()>, files: set<Path>)

  const DownloadFailedPrefix := "视频下载失败，状态码: "

  function StatusMessage(code: nat): string {
    DownloadFailedPrefix + Decimal(code)
  }

  /** A status-code rejection names the code: it can be read back. */
  lemma StatusCodeInMessage(code: nat)
    ensures |DownloadFailedPrefix| < |StatusMessage(code)|
    ensures StatusMessage(code)[..|DownloadFailedPrefix|] == DownloadFailedPrefix
    ensures IsDigits(StatusMessage(code)[|DownloadFailedPrefix|..])
    ensures ParseDecimal(StatusMessage(code)[|DownloadFailedPrefix|..]) == code
  {
    assert StatusMessage(code)[|DownloadFailedPrefix|..] == Decimal(code);
    ParseDecimalOfDecimal(code);
  }

  /** downloadVideo: the write stream creates the output file before the
      request is made; only status 200 fulfils; a network error removes the
      partial file. A request that throws, or a non-200 status, leaves the
      created file in place. */
  function Download(files: set<Path>, outputPath: Path, outcome: DownloadOutcome): (s: FsStep)
    ensures s.result.Ok? <==> outcome == Responded(200)
    ensures outcome.RequestThrew? ==> s.result == Err(outcome.message) && s.files == files + {outputPath}
    ensures outcome.Responded? ==> s.files == files + {outputPath}
    ensures outcome.Responded? && outcome.statusCode != 200 ==> s.result == Err(StatusMessage(outcome.statusCode))
    ensures outcome.NetworkError? ==> s.result == Err(outcome.message) && s.files == files - {outputPath}
  {
    match outcome
    case RequestThrew(message) => FsStep(Err(message), files + {outputPath})
    case Responded(code) =>
      FsStep(if code == 200 then Ok(()) else Err(StatusMessage(code)), files + {outputPath})
    case NetworkError(message) => FsStep(Err(message), files - {outputPath})
  }

  /** extractAudio: on `end` the output exists and the input is removed when
      the unlink succeeds, which does not affect the fulfilment; on `error`
      the tool's error is passed on. */
  function Extract(files: set<Path>, inputPath: Path, outputPath: Path, outcome: ExtractOutcome): (s: FsStep)
    requires inputPath != outputPath
    ensures s.result.Ok? <==> outcome.Ended?
    ensures outcome.ToolError? ==> s == FsStep(Err(outcome.message), files)
    ensures outcome.Ended? ==> outputPath in s.files && (inputPath in s.files <==> inputPath in files && !outcome.inputRemoved)
    ensures s.files - {inputPath, outputPath} == files - {inputPath, outputPath}
  {
    match outcome
    case Ended(inputRemoved) =>
      FsStep(Ok(()), (files + {outputPath}) - (if inputRemoved then {inputPath} else {}))
    case ToolError(message) => FsStep(Err(message), files)
  }

  /** The file system as the service sees it. */
  class Disk {
    var files: set<Path>

    constructor (existing: set<Path>)
      ensures files == existing
    {
      files := existing;
    }

    method DownloadVideo(outputPath: Path, outcome: DownloadOutcome) returns (r: Result<()>)
      modifies this
      ensures FsStep(r, files) == Download(old(files), outputPath, outcome)
    {
      files := files + {outputPath};
      match outcome
      case RequestThrew(message) =>
        r := Err(message);
      case Responded(code) =>
        if code != 200 {
          r := Err(StatusMessage(code));
          return;
        }
        r := Ok(());
      case NetworkError(message) =>
        files := files - {outputPath};
        r := Err(message);
    }

    method ExtractAudio(inputPath: Path, outputPath: Path, outcome: ExtractOutcome) returns (r: Result<()>)
      requires inputPath != outputPath
      modifies this
      ensures FsStep(r, files) == Extract(old(files), inputPath, outputPath, outcome)
    {
      match outcome
      case Ended(inputRemoved) =>
        files := files + {outputPath};
        if inputRemoved {
          files := files - {inputPath};
        }
        r := Ok(());
      case ToolError(message) =>
        r := Err(message);
    }
  }

  // ---------------------------------------------------------------------------
  // The /convert handler
  // ---------------------------------------------------------------------------

  const MissingUrlError := "请提供视频URL"
  const ConvertedThoughts := "视频已成功转换为音频文件"

  function MissingUrlReply(): HttpReply {
    HttpReply(400, MissingUrlThoughts, Some(MissingUrlError), [])
  }

  function SuccessReply(url: string, sizeMb: string, name: string): HttpReply {
    HttpReply(200, ConvertedThoughts, None, [AudioCall(url, sizeMb, "mp3", name)])
  }

  /** The reply and the paths that exist afterwards. */
  datatype ConvertRun = ConvertRun(reply: HttpReply, files: set<Path>)

  /** POST /convert, given the generated id, how the download and the
      extraction end, the size of the audio as reported, and the paths that
      exist beforehand. */
  function Convert(cfg: Config, req: Request, id: string, download: DownloadOutcome, extract: ExtractOutcome,
                   sizeMb: string, files: set<Path>): (run: ConvertRun)
    ensures run.reply.status == 400 <==> !Truthy(req.videoUrl)
    ensures run.reply.status == 400 ==> run.reply == MissingUrlReply() && run.files == files
    ensures run.reply.status == 200 <==> Truthy(req.videoUrl) && download == Responded(200) && extract.Ended?
    ensures run.reply.status == 200 ==>
      run.reply.toolCalls == [AudioCall(AudioUrl(req, id), sizeMb, "mp3", AudioName(id))]
    ensures run.reply.status == 200 ==> run.reply == SuccessReply(AudioUrl(req, id), sizeMb, AudioName(id))
    ensures Truthy(req.videoUrl) && download.Responded? && !(download.statusCode == 200 && extract.Ended?) ==>
      run.files == files + {VideoPath(cfg, id)}
    ensures run.reply.status == 200 || run.reply.status == 400 || run.reply.status == 500
    ensures run.reply.status == 500 ==> run.reply.error.Some? && run.reply.toolCalls == []
    ensures Truthy(req.videoUrl) && download == Responded(200) && extract.ToolError? ==>
      run.reply == FailureReply(extract.message)
  {
    PathsNeverCollide(cfg, id, id);
    if !Truthy(req.videoUrl) then ConvertRun(MissingUrlReply(), files)
    else
      var downloaded := Download(files, VideoPath(cfg, id), download);
      if downloaded.result.Err? then ConvertRun(FailureReply(downloaded.result.message), downloaded.files)
      else
        var extracted := Extract(downloaded.files, VideoPath(cfg, id), AudioPath(cfg, id), extract);
        if extracted.result.Err? then ConvertRun(FailureReply(extracted.result.message), extracted.files)
        else ConvertRun(SuccessReply(AudioUrl(req, id), sizeMb, AudioName(id)), extracted.files)
  }

  /** The handler itself: download, then extract, then answer. */
  method HandleConvert(disk: Disk, cfg: Config, req: Request, id: string, download: DownloadOutcome,
                       extract: ExtractOutcome, sizeMb: string) returns (reply: HttpReply)
    modifies disk
    ensures ConvertRun(reply, disk.files) == Convert(cfg, req, id, download, extract, sizeMb, old(disk.files))
  {
    if !Truthy(req.videoUrl) {
      return MissingUrlReply();
    }
    var videoPath := VideoPath(cfg, id);
    var audioPath := AudioPath(cfg, id);
    PathsNeverCollide(cfg, id, id);
    var r := disk.DownloadVideo(videoPath, download);
    if r.Err? {
      return FailureReply(r.message);
    }
    r := disk.ExtractAudio(videoPath, audioPath, extract);
    if r.Err? {
      return FailureReply(r.message);
    }
    reply := SuccessReply(AudioUrl(req, id), sizeMb, AudioName(id));
  }

  // ---------------------------------------------------------------------------
  // Properties of /convert
  // ---------------------------------------------------------------------------

  /** Without a URL nothing is downloaded or extracted: the outcomes of those
      steps cannot matter. */
  lemma MissingUrlTouchesNothing(cfg: Config, req: Request, id: string, d1: DownloadOutcome, d2: DownloadOutcome,
                                 e1: ExtractOutcome, e2: ExtractOutcome, sizeMb: string, files: set<Path>)
    requires !Truthy(req.videoUrl)
    ensures Convert(cfg, req, id, d1, e1, sizeMb, files) == Convert(cfg, req, id, d2, e2, sizeMb, files)
    ensures Convert(cfg, req, id, d1, e1, sizeMb, files).files == files
  {
  }

  /** Extraction runs only after a successful download: when the download
      fails, the extraction outcome cannot matter and the reply carries the
      download's error. */
  lemma ExtractOnlyAfterDownload(cfg: Config, req: Request, id: string, download: DownloadOutcome,
                                 e1: ExtractOutcome, e2: ExtractOutcome, sizeMb: string, files: set<Path>)
    requires Truthy(req.videoUrl) && download != Responded(200)
    ensures Convert(cfg, req, id, download, e1, sizeMb, files) == Convert(cfg, req, id, download, e2, sizeMb, files)
    ensures Convert(cfg, req, id, download, e1, sizeMb, files).reply
         == FailureReply(Download(files, VideoPath(cfg, id), download).result.message)
  {
  }

  /** A non-200 download answers 500 with an error that names the status
      code. */
  lemma DownloadStatusReported(cfg: Config, req: Request, id: string, code: nat, extract: ExtractOutcome,
                               sizeMb: string, files: set<Path>)
    requires Truthy(req.videoUrl) && code != 200
    ensures var reply := Convert(cfg, req, id, Responded(code), extract, sizeMb, files).reply;
      && reply.status == 500 && reply.toolCalls == [] && reply.error.Some?
      && |DownloadFailedPrefix| < |reply.error.value|
      && reply.error.value[..|DownloadFailedPrefix|] == DownloadFailedPrefix
      && IsDigits(reply.error.value[|DownloadFailedPrefix|..])
      && ParseDecimal(reply.error.value[|DownloadFailedPrefix|..]) == code
  {
    StatusCodeInMessage(code);
  }

  /** A network error leaves no partial video behind. */
  lemma NetworkErrorRemovesPartialFile(cfg: Config, req: Request, id: string, message: string,
                                       extract: ExtractOutcome, sizeMb: string, files: set<Path>)
    requires Truthy(req.videoUrl)
    ensures var run := Convert(cfg, req, id, NetworkError(message), extract, sizeMb, files);
      run.reply == FailureReply(message) && VideoPath(cfg, id) !in run.files
  {
  }

  /** A request `https.get` refuses outright answers 500 with its error and
      leaves the empty video file the write stream created. */
  lemma RequestThrowLeavesFile(cfg: Config, req: Request, id: string, message: string,
                               extract: ExtractOutcome, sizeMb: string, files: set<Path>)
    requires Truthy(req.videoUrl)
    ensures var run := Convert(cfg, req, id, RequestThrew(message), extract, sizeMb, files);
      run.reply == FailureReply(message) && run.files == files + {VideoPath(cfg, id)}
  {
  }

  /** After a successful conversion the audio URL's path names a file that
      exists, and the downloaded video is gone unless its removal failed. */
  lemma SuccessServesAudioAndDropsVideo(cfg: Config, req: Request, id: string, inputRemoved: bool,
                                        sizeMb: string, files: set<Path>)
    requires Truthy(req.videoUrl)
    ensures var run := Convert(cfg, req, id, Responded(200), Ended(inputRemoved), sizeMb, files);
      var call := run.reply.toolCalls[0];
      && run.reply.status == 200
      && call.format == "mp3"
      && call.url == Protocol(req) + "://" + Host(req) + "/audio/" + call.name
      && ServedPath(cfg, call.name) in run.files
      && (VideoPath(cfg, id) in run.files <==> !inputRemoved)
  {
  }

  /** A failed removal of the video does not change the reply. */
  lemma RemovalFailureInvisible(cfg: Config, req: Request, id: string, sizeMb: string, files: set<Path>)
    ensures Convert(cfg, req, id, Responded(200), Ended(true), sizeMb, files).reply
         == Convert(cfg, req, id, Responded(200), Ended(false), sizeMb, files).reply
  {
  }
}
