# gomusic yt-dlp wrapper, modelled in Dafny

This project models `YtdlpWrapper`, the media-resolution layer of gomusic.
The layer wraps the external `yt-dlp` extractor and does four things:

- provisions a cookie file from the `YOUTUBE_COOKIES` environment value, as base64 or as plain text;
- assembles the extractor's command line, attaching the cookies when there are some;
- resolves a playable stream URL by scanning the extractor's output from the last line back;
- fetches metadata (the JSON dump, stamped with the origin tag `yt-dlp`) and downloads the best audio into `./cache` under a `YYYYMMDD_HHMMSS` name, removing the file when the download fails.

The extractor process, the wall clock and the JSON decoder are inputs of the model:

- An `Extractor` object holds an arbitrary but fixed behaviour. A run yields an outcome (stdout or failure, plus the files it leaves behind) and is logged.
- The clock is a `DateTime` record.
- The decoder is a partial function from text to `Meta`.
- The file system is a `FileSystem` object: a map of files, a set of directories, a set of paths where creating, overwriting or removing is denied, and an optional working directory.

Modules:

- `Basics`: `Option`, `Result`, `byte`.
- `GoStrings`: `strings.Split`, `strings.Join`, `strings.TrimSpace`, `strings.HasPrefix` with Go's semantics. The white-space set is `unicode.IsSpace`.
- `Base64`: `base64.StdEncoding`, the standard alphabet of section 4 of RFC 4648. The decoder follows Go: CR and LF are skipped, padding is required, padding is accepted only at the end, and leftover bits are ignored.
- `Timestamp`: the `"20060102_150405"` layout and a parser that inverts it.
- `Os`: the file system, plus `filepath.Join` and `filepath.Abs`.
- `StreamUrl`: the output scan of `GetStreamURL`.
- `Ytdlp`: the wrapper itself.

`strings.Split` always returns at least one piece (`Split` ensures `|r| >= 1`). The `len(lines) == 0` guard of `GetStreamURL` therefore never fires. Empty output splits to `[""]` and ends in the final "no valid URL" error; `EmptyOutputHasNoUrl` and `EmptyOutputNoValidUrl` state this. The model has no code for the dead branch.

The download target is `filepath.Join("./cache", timestamp)`. `Join` cleans its result, so the target is `cache/<timestamp>`, not `./cache/<timestamp>`. The model follows the code. File-system keys are cleaned paths, so `./cache` and `cache` name the same directory.

## Model

| member | source | states |
|---|---|---|
| GoStrings.Split | parsers/ytdlp.go:68-70 | `strings.Split` on a newline always yields at least one piece, so the empty-lines guard is dead |
| GoStrings.SplitNoNewlines | parsers/ytdlp.go:68 | no piece of a split contains the separator |
| GoStrings.JoinSplit | parsers/ytdlp.go:68 | joining the pieces with newlines gives back the output |
| GoStrings.SplitJoinLines | parsers/ytdlp.go:68 | splitting a join of newline-free lines gives the lines back |
| GoStrings.SplitAppendLine | parsers/ytdlp.go:68 | printing one more line appends exactly one piece |
| GoStrings.IsSpace | parsers/ytdlp.go:75 | on ASCII, white space is exactly tab, line feed, vertical tab, form feed, carriage return and space |
| GoStrings.HasPrefix | parsers/ytdlp.go:76 | true iff the prefix fits and agrees with the start of the string character by character |
| GoStrings.TrimSpace | parsers/ytdlp.go:75 | a trimmed line, when non-empty, has no Unicode white space at either end |
| GoStrings.TrimSpaceInfix | parsers/ytdlp.go:75 | trimming keeps a contiguous infix and cuts off only white space |
| GoStrings.TrimSpaceIdempotent | parsers/ytdlp.go:75 | trimming twice equals trimming once |
| StreamUrl.IsUrlLine | parsers/ytdlp.go:76 | an accepted line's trimmed form is at least four characters long and starts with "http" |
| StreamUrl.LastUrlIndex | parsers/ytdlp.go:74-79 | the index found is of an accepted line (trimmed, starts with "http") after which none is accepted; `None` iff no line is accepted |
| StreamUrl.LastUrlIndexIs | parsers/ytdlp.go:74-79 | an accepted line with no accepted line after it is the one the scan finds |
| StreamUrl.SelectUrl | parsers/ytdlp.go:68-81 | a selected URL starts with "http" and has no white space at either end |
| StreamUrl.SelectUrlTrimmed | parsers/ytdlp.go:75-77 | a selected URL is its own trimmed form |
| StreamUrl.ScanOutput | parsers/ytdlp.go:74-81 | the backward loop returns the URL `SelectUrl` names, or reports not found exactly when `SelectUrl` is `None` |
| StreamUrl.SelectUrlCharacterized | parsers/ytdlp.go:68-79 | the result is `u` iff some line trims to `u`, is accepted, and no later line is accepted |
| StreamUrl.SelectUrlNoneIff | parsers/ytdlp.go:74-81 | no URL iff no line's trimmed form starts with "http" |
| StreamUrl.EmptyOutputHasNoUrl | parsers/ytdlp.go:68-71 | empty output splits to one empty line and names no URL |
| StreamUrl.LastUrlLineWins | parsers/ytdlp.go:73-77 | a URL line printed last wins over everything before it |
| StreamUrl.TrailingNoiseIgnored | parsers/ytdlp.go:74-79 | a non-URL line printed last does not change the answer |
| StreamUrl.WarningsThenUrl | parsers/ytdlp.go:73-77 | warnings, then a URL line, then the final newline: the trimmed URL is returned |
| StreamUrl.ExampleOutput | parsers/ytdlp.go:73-77 | a warning line followed by a stream URL yields that URL |
| Base64.Encode | parsers/ytdlp.go:29 | an encoding is a whole number of quanta and is empty iff the input is |
| Base64.EncodeLength | parsers/ytdlp.go:29 | every started group of three bytes becomes four characters |
| Base64.EncodeAlphabet | parsers/ytdlp.go:29 | an encoding holds only alphabet characters and padding, never a line break |
| Base64.DecodeQuantaEncode | parsers/ytdlp.go:29 | decoding the quanta of an encoding gives back the bytes |
| Base64.DecodeEncode | parsers/ytdlp.go:29 | `DecodeString(EncodeToString(x)) == x` for every byte string |
| Base64.DecodeQuantaLength | parsers/ytdlp.go:29 | every four characters decode to at most three bytes |
| Base64.Decode | parsers/ytdlp.go:29 | a successful decode had a whole number of quanta once line breaks are removed, and yields at most three bytes per four characters |
| Ytdlp.CookieBytes | parsers/ytdlp.go:29-33 | the bytes written are never longer than the value, and a value that fails to decode is written as is |
| Ytdlp.CookieBytesEncoded | parsers/ytdlp.go:29-33 | a base64-encoded cookie value is written in decoded form |
| Ytdlp.CookieBytesPlain | parsers/ytdlp.go:29-33 | a value starting outside the base64 alphabet (a Netscape `#` header) fails to decode and is written as is |
| Ytdlp.YtdlpWrapper.constructor | parsers/ytdlp.go:22-49 | empty value: no cookie path, no file written; otherwise the cookie bytes go to `./cookies.txt`, and the cookie path is `./cookies.txt` iff that write succeeded |
| Ytdlp.YtdlpWrapper.Client | parsers/ytdlp.go:51-57 | the fresh command is non-empty iff the cookie path is, and holds only the cookies option for that path |
| Ytdlp.YtdlpWrapper.StreamCommand | parsers/ytdlp.go:61 | the URL command asks for cookies iff the cookie path is non-empty, only for that path, and ends in the get-URL option |
| Ytdlp.YtdlpWrapper.MetaCommand | parsers/ytdlp.go:88 | the metadata command carries the client's cookie setting, dumps JSON, skips the download and ends in the output template `<token>.%(ext)s` |
| Ytdlp.YtdlpWrapper.DownloadCommand | parsers/ytdlp.go:117-123 | the download command carries the client's cookie setting, no-part, no-playlist, no-overwrites, no-keep-video and the best-audio format, and ends in the output target |
| Ytdlp.YtdlpWrapper.ClientThen | parsers/ytdlp.go:88 | options chained after the client's keep its cookie setting |
| Ytdlp.Extractor.Run | parsers/ytdlp.go:63 | one logged run; its result is the behaviour's, and its permitted writes land |
| Ytdlp.StreamOutcome | parsers/ytdlp.go:63-81 | run failure gives an exec error; otherwise the URL selected, or "no valid URL" with an empty string |
| Ytdlp.StreamOutcomeIsUrl | parsers/ytdlp.go:75-77 | a URL returned without error starts with "http" and is already trimmed |
| Ytdlp.EmptyOutputNoValidUrl | parsers/ytdlp.go:68-81 | empty stdout ends in the "no valid URL" error |
| Ytdlp.YtdlpWrapper.GetStreamURL | parsers/ytdlp.go:59-82 | runs the URL command once and returns exactly `StreamOutcome` of the run |
| Ytdlp.Stamp | parsers/ytdlp.go:102 | the origin tag becomes "yt-dlp"; title, duration and uploader are kept |
| Ytdlp.StampIdempotent | parsers/ytdlp.go:102 | stamping twice equals stamping once |
| Ytdlp.MetaOutcome | parsers/ytdlp.go:90-103 | no error iff the run succeeded and the JSON decoded, and then the record is stamped "yt-dlp"; on any error the record is the zero `Meta` |
| Ytdlp.YtdlpWrapper.GetMetaInfo | parsers/ytdlp.go:84-104 | runs the dump-JSON command with the timestamp template once and returns exactly `MetaOutcome` |
| Timestamp.Format | parsers/ytdlp.go:85 | for years up to 9999 the token has fifteen characters, `_` at index 8 and digits elsewhere |
| Timestamp.ParseFormat | parsers/ytdlp.go:113 | the token parses back to the clock reading |
| Timestamp.FormatCollision | parsers/ytdlp.go:113 | two readings give the same token iff they are equal |
| Ytdlp.OutputPath | parsers/ytdlp.go:113-114 | the download target is the cleaned join: `cache/` followed by the timestamp token |
| Ytdlp.OutputPathShape | parsers/ytdlp.go:113-114 | the download target is `cache/` followed by a token that parses back to the reading |
| Ytdlp.OutputPathCollision | parsers/ytdlp.go:113-114 | two downloads share a target iff they start in the same second |
| Os.Join | parsers/ytdlp.go:114 | the joined path is clean; an empty or `.` directory is dropped, otherwise the path ends in a separator and the name |
| Os.JoinExamples | parsers/ytdlp.go:114 | joining to an empty or `.` directory gives the bare name, and `./cache` joins as `cache/` |
| Os.Clean | parsers/ytdlp.go:114 | a cleaned path is no longer than the input and has no leading `./` |
| Os.CleanSuffix | parsers/ytdlp.go:114 | cleaning only drops a prefix |
| Os.Abs | parsers/ytdlp.go:134-137 | succeeds iff the path is absolute or the working directory is known; the result is absolute |
| Os.AbsSuffix | parsers/ytdlp.go:134 | a relative path made absolute ends in `/` and the cleaned path |
| Os.FileSystem.WriteFile | parsers/ytdlp.go:37 | the write succeeds iff the path is writable, and then stores exactly the data there |
| Os.FileSystem.MkdirAll | parsers/ytdlp.go:109 | succeeds iff the directory exists or nothing blocks it, and then the directory exists |
| Os.FileSystem.Remove | parsers/ytdlp.go:130 | success iff the file was there and the path is not denied; a file at a permitted path is gone afterwards, one at a denied path stays |
| Ytdlp.YtdlpWrapper.DownloadStream | parsers/ytdlp.go:106-140 | mkdir failure: error, no run, no change; run failure: error naming the URL, empty path, no file left at the target unless its removal is denied; success: the run's output and the absolute target path, or an error naming the target when `Abs` fails |
| Ytdlp.DownloadPathShape | parsers/ytdlp.go:134-139 | a returned path is absolute and ends in `/cache/` and a timestamp token |

## Left out

- `cmd/melodix/melodix.go` is not part of this model. It holds environment loading, bot start and stop, the liveness server, signal handling and the final removal of `./cache`: process plumbing with no logic to state.
- The internals of the go-ytdlp library (`ytdlp.New`, the flag builders, `Run`) are not modelled. A command is the list of options the builder chain adds. A run is the extractor's fixed behaviour on the command and URL.
- The five-minute timeout of the download and the context cancellation are not modelled. A timed-out run is one of the failing outcomes.
- `time.Now` is an input: a `DateTime` record. Time zones and monotonic readings are not modelled.
- `json.Unmarshal` is an input: a partial function from output text to `Meta`. The record's fields beyond title, duration, uploader and origin tag are not modelled, because its definition is outside the modelled file.
- Error values are structured (`Error`), not formatted text. `%w` wrapping and `%q` quoting are not modelled; the URL and the target path are carried as fields.
- Logging (`log.Println`, `log.Printf`) is not modelled.
- Os.Clean: drops only leading `./`. Go's `filepath.Clean` also folds `..`, `.` and repeated slashes, which none of the wrapper's paths contain.
- Os.FileSystem.Remove: removes regular files only, not empty directories; the wrapper only removes its download target.
- Os.FileSystem.WriteFile: failures after the file is opened (disk full, an I/O error) are not modelled. A failed write leaves the files unchanged, whereas Go may leave an empty or partial file behind.
- Os.Join: cleans only as `Os.Clean` does. The name's own `.`, `..` and repeated slashes are not folded, and an empty name is not dropped; the wrapper joins a plain timestamp token.
- Os.Abs: does not clean its result. Go's `filepath.Abs` returns the cleaned path, which differs for a working directory with a trailing slash or `.`/`..` segments, or for an unclean absolute input. The wrapper passes only the relative, clean `cache/<timestamp>`.
- File permissions (`0644`, `0755`), parent-directory checks and symbolic links are not modelled. Creating, overwriting and removing fail exactly on the paths in `denied`.
- The extractor's writes are keyed by cleaned path and land wholesale. Partial writes are whatever the outcome says; no byte-level I/O is modelled.
- The environment value is taken as bytes. Go hands the string's raw bytes to the decoder and, on failure, writes them unchanged, so the two agree.
- The extractor's stdout is taken as a sequence of Unicode code points, so output that is not valid UTF-8 cannot be represented. The results would agree: Go's `TrimSpace` reads an invalid byte as U+FFFD, which is not white space, and the split and the prefix test only look at ASCII characters.
- Timestamp.Format: years past 9999 are written with all their digits, as Go does, but the shape and round-trip lemmas cover four-digit years only.
- Concurrency is not modelled. Two downloads in the same second collide on one target, as `OutputPathCollision` states; the wrapper does not guard against it.
