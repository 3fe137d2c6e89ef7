/**
 * The yt-dlp wrapper: cookie provisioning from the environment, assembly of
 * the extractor's command line, and the three operations built on running
 * it: resolving a stream URL, fetching metadata, and downloading into the
 * cache directory. The extractor process, the wall clock and the JSON decoder
 * are inputs of the model.
 */
module Ytdlp {
  import opened Basics
  import opened GoStrings
  import Base64
  import Timestamp
  import opened Os
  import opened StreamUrl

  /** Where the cookies from the environment are written. */
  const CookieFile: string := "./cookies.txt"
  /** The directory downloads go to. */
  const CacheDir: string := "./cache"
  /** The origin tag stamped on every metadata record. */
  const ParserName: string := "yt-dlp"
  /** The format selector used for downloads. */
  const AudioFormat: string := "bestaudio"
  /** Appended to the timestamp in the metadata run's output template. */
  const ExtensionTemplate: string := ".%(ext)s"

  /** One option of the extractor's command line. */
  datatype Flag =
    | Cookies(path: string)
    | GetUrl
    | DumpJson
    | SkipDownload
    | Output(template: string)
    | NoPart
    | NoPlaylist
    | NoOverwrites
    | NoKeepVideo
    | FormatSelector(selector: string)

  /** The options in the order the builder chain adds them. */
  type Command = seq<Flag>

  /** One run of the extractor on a URL. */
  datatype Invocation = Invocation(cmd: Command, url: string)

  /**
   * What a run does: its standard output or the reason it failed, and the
   * files it leaves behind (keyed by cleaned path), complete or partial.
   */
  datatype Outcome = Outcome(result: Result<string, string>, writes: map<string, Bytes>)

  /** The failures the wrapper reports. */
  datatype Error =
    | ExecFailed(cause: string)
    | NoValidUrl
    | UnmarshalFailed
    | CacheDirFailed
    | DownloadFailed(url: string, cause: string)
    | AbsPathFailed(path: string)

  /**
   * The external extractor. Its behaviour is fixed but arbitrary; the model
   * records every invocation so that the commands the wrapper issues can be
   * stated.
   */
  class Extractor {
    const behaviour: (Command, string) -> Outcome
    var calls: seq<Invocation>

    constructor (behaviour: (Command, string) -> Outcome)
      ensures this.behaviour == behaviour && calls == []
    {
      this.behaviour := behaviour;
      calls := [];
    }

    /** Runs the extractor: the files it writes land where they are allowed to. */
    method Run(cmd: Command, url: string, fs: FileSystem) returns (r: Result<string, string>)
      requires fs.Valid()
      modifies this`calls, fs`files
      ensures fs.Valid()
      ensures calls == old(calls) + [Invocation(cmd, url)]
      ensures r == behaviour(cmd, url).result
      ensures fs.files == old(fs.files) + old(fs.Permitted(behaviour(cmd, url).writes))
    {
      calls := calls + [Invocation(cmd, url)];
      var outcome := behaviour(cmd, url);
      fs.Store(outcome.writes);
      r := outcome.result;
    }
  }

  /** The metadata record; the field layout beyond these four is not modelled. */
  datatype Meta = Meta(title: string, duration: int, uploader: string, parser: string)

  /** Go's zero `Meta{}`. */
  const ZeroMeta: Meta := Meta("", 0, "", "")

  /**
   * The bytes written to the cookie file: the base64 decode, or the value
   * itself. The file is never larger than the value.
   */
  function CookieBytes(env: Bytes): (r: Bytes)
    ensures |r| <= |env|
    ensures Base64.Decode(env).None? ==> r == env
  {
    match Base64.Decode(env)
    case Some(decoded) => decoded
    case None => env
  }

  /** A base64-encoded cookie file is written back in its original form. */
  lemma CookieBytesEncoded(data: Bytes)
    ensures CookieBytes(Base64.Encode(data)) == data
  {
    Base64.DecodeEncode(data);
  }

  /**
   * A value that starts with a character outside the base64 alphabet (say
   * the `#` of a Netscape cookie file header) is written as it is.
   */
  lemma {:induction false} CookieBytesPlain(env: Bytes)
    requires |env| > 0 && Base64.SextetValue(env[0]).None?
    requires env[0] != Base64.CarriageReturn && env[0] != Base64.LineFeed
    ensures Base64.Decode(env) == None
    ensures CookieBytes(env) == env
  {
    var t := Base64.StripLineBreaks(env);
    assert t == [env[0]] + Base64.StripLineBreaks(env[1..]);
    if |t| % 4 == 0 {
      assert t[0] == env[0];
      if |t| == 4 {
        assert Base64.DecodeLast(t[0], t[1], t[2], t[3]) == None;
      } else {
        assert Base64.DecodeFull(t[0], t[1], t[2], t[3]) == None;
      }
    }
  }

  /** `Meta` with its origin tag overwritten. */
  function Stamp(m: Meta): (r: Meta)
    ensures r.parser == ParserName
    ensures r.title == m.title && r.duration == m.duration && r.uploader == m.uploader
  {
    m.(parser := ParserName)
  }

  /** Stamping twice is stamping once. */
  lemma StampIdempotent(m: Meta)
    ensures Stamp(Stamp(m)) == Stamp(m)
  {
  }

  /**
   * The outcome of `GetMetaInfo` given the run's result and the JSON
   * decoder: the zero record together with an error, or the decoded record
   * stamped with the extractor's name and no error.
   */
  function MetaOutcome(run: Result<string, string>, unmarshal: string -> Option<Meta>): (r: (Meta, Option<Error>))
    ensures r.1.None? <==> run.Ok? && unmarshal(run.value).Some?
    ensures r.1.None? ==> r.0 == Stamp(unmarshal(run.value).value)
    ensures r.1.Some? ==> r.0 == ZeroMeta
    ensures run.Err? ==> r.1 == Some(ExecFailed(run.error))
    ensures run.Ok? && unmarshal(run.value).None? ==> r.1 == Some(UnmarshalFailed)
  {
    match run
    case Err(cause) => (ZeroMeta, Some(ExecFailed(cause)))
    case Ok(stdout) =>
      match unmarshal(stdout)
      case None => (ZeroMeta, Some(UnmarshalFailed))
      case Some(m) => (m.(parser := ParserName), None)
  }

  /**
   * The outcome of `GetStreamURL` given the run's result: the URL the output
   * names, or an error and the empty string.
   */
  function StreamOutcome(run: Result<string, string>): (r: (string, Option<Error>))
    ensures run.Err? ==> r == ("", Some(ExecFailed(run.error)))
    ensures run.Ok? && SelectUrl(run.value).None? ==> r == ("", Some(NoValidUrl))
    ensures run.Ok? && SelectUrl(run.value).Some? ==> r == (SelectUrl(run.value).value, None)
  {
    match run
    case Err(cause) => ("", Some(ExecFailed(cause)))
    case Ok(stdout) =>
      match SelectUrl(stdout)
      case None => ("", Some(NoValidUrl))
      case Some(u) => (u, None)
  }

  /** A URL returned without error starts with "http" and is trimmed. */
  lemma StreamOutcomeIsUrl(run: Result<string, string>)
    ensures var r := StreamOutcome(run);
            r.1.None? ==> HasPrefix(r.0, Scheme) && TrimSpace(r.0) == r.0
  {
    if run.Ok? {
      SelectUrlTrimmed(run.value);
    }
  }

  /** Empty standard output is reported as "no valid URL", not as a URL. */
  lemma EmptyOutputNoValidUrl()
    ensures StreamOutcome(Ok("")) == ("", Some(NoValidUrl))
  {
    EmptyOutputHasNoUrl();
  }

  /**
   * The download target for a clock reading: `filepath.Join("./cache", token)`,
   * which cleans to `cache/` followed by the token.
   */
  function OutputPath(now: Timestamp.DateTime): (r: string)
    requires now.Valid()
    ensures r == "cache/" + Timestamp.Format(now)
  {
    CacheDirClean();
    Join(CacheDir, Timestamp.Format(now))
  }

  /** The target is `cache/` followed by the fifteen-character timestamp token. */
  lemma OutputPathShape(now: Timestamp.DateTime)
    requires now.Valid() && now.year < 10000
    ensures var p := OutputPath(now);
            |p| == 21 && p[..6] == "cache/" && Timestamp.IsToken(p[6..])
            && Timestamp.Parse(p[6..]) == Some(now)
  {
    Timestamp.ParseFormat(now);
    var token := Timestamp.Format(now);
    CacheDirClean();
    var p := "cache/" + token;
    assert OutputPath(now) == p;
    assert p[6..] == token;
  }

  /** `./cache` cleans to `cache`. */
  lemma CacheDirClean()
    ensures Clean(CacheDir) == "cache"
  {
    assert CacheDir[..2] == "./";
    assert CacheDir[2..] == "cache";
    assert "cache"[..2][0] == 'c';
  }

  /** Two downloads share a target exactly when they start in the same second. */
  lemma OutputPathCollision(t1: Timestamp.DateTime, t2: Timestamp.DateTime)
    requires t1.Valid() && t2.Valid() && t1.year < 10000 && t2.year < 10000
    ensures OutputPath(t1) == OutputPath(t2) <==> t1 == t2
  {
    if OutputPath(t1) == OutputPath(t2) {
      OutputPathShape(t1);
      OutputPathShape(t2);
    }
  }

  /** The wrapper; `cookiePath` is empty when no cookie file is in use. */
  class YtdlpWrapper {
    const cookiePath: string

    /**
     * `NewYtdlpWrapper`: with an empty environment value nothing is written;
     * otherwise the cookie bytes are written to `./cookies.txt`, and the
     * wrapper uses that file exactly when the write succeeded.
     */
    constructor (env: Bytes, fs: FileSystem)
      requires fs.Valid()
      modifies fs`files
      ensures fs.Valid()
      ensures env == [] ==> cookiePath == "" && fs.files == old(fs.files)
      ensures env != [] && old(fs.Writable(Clean(CookieFile))) ==>
                cookiePath == CookieFile && fs.files == old(fs.files)[Clean(CookieFile) := CookieBytes(env)]
      ensures env != [] && !old(fs.Writable(Clean(CookieFile))) ==>
                cookiePath == "" && fs.files == old(fs.files)
    {
      var path := "";
      if env != [] {
        var decoded := CookieBytes(env);
        var ok := fs.WriteFile(CookieFile, decoded);
        if ok {
          path := CookieFile;
        }
      }
      cookiePath := path;
    }

    /** `getClient`: a fresh command, with the cookie file attached when there is one. */
    function Client(): (cmd: Command)
      ensures cmd != [] <==> cookiePath != ""
      ensures forall i :: 0 <= i < |cmd| ==> cmd[i] == Cookies(cookiePath)
    {
      var cmd := [];
      if cookiePath != "" then cmd + [Cookies(cookiePath)] else cmd
    }

    /**
     * A command asks for cookies exactly when the wrapper has a cookie file,
     * and then only for that file.
     */
    predicate CookiesAsConfigured(cmd: Command)
    {
      && ((exists i :: 0 <= i < |cmd| && cmd[i].Cookies?) <==> cookiePath != "")
      && forall i :: 0 <= i < |cmd| && cmd[i].Cookies? ==> cmd[i].path == cookiePath
    }

    /** The client's options followed by options that are not about cookies. */
    lemma ClientThen(rest: Command)
      requires forall i :: 0 <= i < |rest| ==> !rest[i].Cookies?
      ensures CookiesAsConfigured(Client() + rest)
    {
      var c := Client();
      var cmd := c + rest;
      assert forall i :: |c| <= i < |cmd| ==> cmd[i] == rest[i - |c|];
      if cookiePath != "" {
        assert cmd[0].Cookies?;
      }
    }

    /** The command `GetStreamURL` runs: cookies as configured, then URL mode. */
    function StreamCommand(): (cmd: Command)
      ensures CookiesAsConfigured(cmd)
      ensures |cmd| > 0 && cmd[|cmd| - 1] == GetUrl
    {
      ClientThen([GetUrl]);
      Client() + [GetUrl]
    }

    /**
     * The command `GetMetaInfo` runs for a timestamp token: cookies as
     * configured, a JSON dump without download, and the token as the
     * output name.
     */
    function MetaCommand(token: string): (cmd: Command)
      ensures CookiesAsConfigured(cmd)
      ensures DumpJson in cmd && SkipDownload in cmd
      ensures |cmd| > 0 && cmd[|cmd| - 1] == Output(token + ExtensionTemplate)
    {
      var rest := [DumpJson, SkipDownload, Output(token + ExtensionTemplate)];
      ClientThen(rest);
      var cmd := Client() + rest;
      assert cmd[|cmd| - 3] == DumpJson && cmd[|cmd| - 2] == SkipDownload;
      cmd
    }

    /**
     * The command `DownloadStream` runs for an output path: cookies as
     * configured, the best audio format, and the output path last.
     */
    function DownloadCommand(output: string): (cmd: Command)
      ensures CookiesAsConfigured(cmd)
      ensures NoPart in cmd && NoPlaylist in cmd && NoOverwrites in cmd && NoKeepVideo in cmd
      ensures FormatSelector(AudioFormat) in cmd
      ensures |cmd| > 0 && cmd[|cmd| - 1] == Output(output)
    {
      var rest := [NoPart, NoPlaylist, NoOverwrites, NoKeepVideo, FormatSelector(AudioFormat), Output(output)];
      ClientThen(rest);
      var cmd := Client() + rest;
      var n := |Client()|;
      assert cmd[n] == NoPart && cmd[n + 1] == NoPlaylist && cmd[n + 2] == NoOverwrites;
      assert cmd[n + 3] == NoKeepVideo && cmd[n + 4] == FormatSelector(AudioFormat);
      cmd
    }

    /**
     * `GetStreamURL`: runs the extractor in URL mode and scans its output
     * from the last line back for one that starts with "http".
     */
    method GetStreamURL(url: string, tool: Extractor, fs: FileSystem) returns (streamUrl: string, err: Option<Error>)
      requires fs.Valid()
      modifies tool`calls, fs`files
      ensures fs.Valid()
      ensures tool.calls == old(tool.calls) + [Invocation(StreamCommand(), url)]
      ensures fs.files == old(fs.files) + old(fs.Permitted(tool.behaviour(StreamCommand(), url).writes))
      ensures (streamUrl, err) == StreamOutcome(tool.behaviour(StreamCommand(), url).result)
    {
      var r := tool.Run(StreamCommand(), url, fs);
      if r.Err? {
        return "", Some(ExecFailed(r.error));
      }
      var line, found := ScanOutput(r.value);
      if found {
        return line, None;
      }
      return "", Some(NoValidUrl);
    }

    /**
     * `GetMetaInfo`: runs the extractor in JSON-dump mode, with an output
     * template made from the clock, and decodes its output.
     */
    method GetMetaInfo(url: string, now: Timestamp.DateTime, unmarshal: string -> Option<Meta>,
                       tool: Extractor, fs: FileSystem) returns (meta: Meta, err: Option<Error>)
      requires now.Valid() && fs.Valid()
      modifies tool`calls, fs`files
      ensures fs.Valid()
      ensures tool.calls == old(tool.calls) + [Invocation(MetaCommand(Timestamp.Format(now)), url)]
      ensures fs.files == old(fs.files) + old(fs.Permitted(tool.behaviour(MetaCommand(Timestamp.Format(now)), url).writes))
      ensures (meta, err) == MetaOutcome(tool.behaviour(MetaCommand(Timestamp.Format(now)), url).result, unmarshal)
    {
      var token := Timestamp.Format(now);
      var r := tool.Run(MetaCommand(token), url, fs);
      if r.Err? {
        return ZeroMeta, Some(ExecFailed(r.error));
      }
      var decoded := unmarshal(r.value);
      if decoded.None? {
        return ZeroMeta, Some(UnmarshalFailed);
      }
      meta := decoded.value;
      meta := meta.(parser := ParserName);
      return meta, None;
    }

    /**
     * `DownloadStream`: makes the cache directory, downloads the best audio
     * to `cache/<timestamp>`, removes that file when the run fails, and
     * returns the run's output with the file's absolute path.
     */
    method DownloadStream(url: string, now: Timestamp.DateTime, tool: Extractor, fs: FileSystem)
      returns (result: Option<string>, path: string, err: Option<Error>)
      requires now.Valid() && fs.Valid()
      modifies tool`calls, fs`files, fs`dirs
      ensures fs.Valid()
      // The cache directory cannot be made: nothing runs, nothing changes.
      ensures !old(fs.CanMakeDir(Clean(CacheDir))) ==>
                && result == None && path == "" && err == Some(CacheDirFailed)
                && tool.calls == old(tool.calls)
                && fs.files == old(fs.files) && fs.dirs == old(fs.dirs)
      // Otherwise the directory exists and the extractor runs once.
      ensures old(fs.CanMakeDir(Clean(CacheDir))) ==>
                && fs.dirs == old(fs.dirs) + {Clean(CacheDir)}
                && tool.calls == old(tool.calls) + [Invocation(DownloadCommand(OutputPath(now)), url)]
      // A failed run reports the URL; the target is removed unless removal is denied.
      ensures old(fs.CanMakeDir(Clean(CacheDir))) && tool.behaviour(DownloadCommand(OutputPath(now)), url).result.Err? ==>
                var outcome := tool.behaviour(DownloadCommand(OutputPath(now)), url);
                var target := Clean(OutputPath(now));
                && result == None && path == "" && err == Some(DownloadFailed(url, outcome.result.error))
                && (target !in fs.denied ==>
                      target !in fs.files && fs.files == (old(fs.files) + fs.Permitted(outcome.writes)) - {target})
                && (target in fs.denied ==> fs.files == old(fs.files) + fs.Permitted(outcome.writes))
      // A successful run returns its output and the absolute path of the target.
      ensures old(fs.CanMakeDir(Clean(CacheDir))) && tool.behaviour(DownloadCommand(OutputPath(now)), url).result.Ok? ==>
                var outcome := tool.behaviour(DownloadCommand(OutputPath(now)), url);
                && fs.files == old(fs.files) + fs.Permitted(outcome.writes)
                && match Abs(fs.cwd, OutputPath(now))
                   case Some(abs) => result == Some(outcome.result.value) && path == abs && err == None
                   case None => result == None && path == "" && err == Some(AbsPathFailed(OutputPath(now)))
    {
      var made := fs.MkdirAll(CacheDir);
      if !made {
        return None, "", Some(CacheDirFailed);
      }
      var output := OutputPath(now);
      var r := tool.Run(DownloadCommand(output), url, fs);
      if r.Err? {
        var _ := fs.Remove(output);
        return None, "", Some(DownloadFailed(url, r.error));
      }
      var abs := Abs(fs.cwd, output);
      if abs.None? {
        return None, "", Some(AbsPathFailed(output));
      }
      return Some(r.value), abs.value, None;
    }
  }

  /**
   * A successful download's path is absolute and ends in `/cache/` followed
   * by the timestamp token.
   */
  lemma DownloadPathShape(cwd: Option<string>, now: Timestamp.DateTime, abs: string)
    requires cwd.Some? ==> IsAbsolute(cwd.value)
    requires now.Valid() && now.year < 10000
    requires Abs(cwd, OutputPath(now)) == Some(abs)
    ensures IsAbsolute(abs)
    ensures |abs| >= 22 && abs[|abs| - 22..] == "/" + OutputPath(now)
    ensures Timestamp.IsToken(abs[|abs| - 15..])
  {
    var p := OutputPath(now);
    OutputPathShape(now);
    assert p[0] == 'c';
    assert Clean(p) == p;
    AbsSuffix(cwd, p, abs);
    var tail := abs[|abs| - 22..];
    assert abs[|abs| - 15..] == tail[7..];
    assert tail[7..] == p[6..];
  }
}
