/**
 * Picking the playable stream URL out of the extractor's standard output
 * (the scan in `GetStreamURL`): the output is split into lines, the lines
 * are examined from the last to the first, and the first one whose trimmed
 * form starts with "http" is the answer, trimmed. The extractor may print
 * warnings before the URL; scanning backwards makes the last URL win.
 */
module StreamUrl {
  import opened Basics
  import opened GoStrings

  /** The prefix a line must start with, once trimmed, to be taken as a URL. */
  const Scheme: string := "http"

  /** A line the scan accepts: trimmed, it starts with "http", so it has at least four characters. */
  predicate IsUrlLine(line: string)
    ensures IsUrlLine(line) ==> |Scheme| <= |TrimSpace(line)| <= |line| && TrimSpace(line)[..|Scheme|] == Scheme
  {
    HasPrefix(TrimSpace(line), Scheme)
  }

  /** The index of the last accepted line, if any. */
  function LastUrlIndex(lines: seq<string>): (r: Option<nat>)
    ensures r.Some? ==> r.value < |lines| && IsUrlLine(lines[r.value])
                        && forall j :: r.value < j < |lines| ==> !IsUrlLine(lines[j])
    ensures r.None? ==> forall j :: 0 <= j < |lines| ==> !IsUrlLine(lines[j])
  {
    if lines == [] then None
    else if IsUrlLine(lines[|lines| - 1]) then Some(|lines| - 1)
    else
      var r := LastUrlIndex(lines[..|lines| - 1]);
      assert forall j :: 0 <= j < |lines| - 1 ==> lines[..|lines| - 1][j] == lines[j];
      r
  }

  /** The last accepted line is the one after which no line is accepted. */
  lemma {:induction false} LastUrlIndexIs(lines: seq<string>, i: nat)
    requires i < |lines| && IsUrlLine(lines[i])
    requires forall j :: i < j < |lines| ==> !IsUrlLine(lines[j])
    ensures LastUrlIndex(lines) == Some(i)
  {
    var n := |lines|;
    if i < n - 1 {
      var prefix := lines[..n - 1];
      assert !IsUrlLine(lines[n - 1]);
      assert forall j :: i < j < |prefix| ==> prefix[j] == lines[j];
      LastUrlIndexIs(prefix, i);
    }
  }

  /**
   * The stream URL the output names, or `None` when no line qualifies. A URL
   * found starts with "http" and has no white space at either end.
   */
  function SelectUrl(stdout: string): (r: Option<string>)
    ensures r.Some? ==> HasPrefix(r.value, Scheme) && !IsSpace(r.value[0]) && !IsSpace(r.value[|r.value| - 1])
  {
    var lines := Split(stdout);
    match LastUrlIndex(lines)
    case Some(i) => Some(TrimSpace(lines[i]))
    case None => None
  }

  /** A selected URL is already trimmed. */
  lemma SelectUrlTrimmed(stdout: string)
    ensures SelectUrl(stdout).Some? ==> TrimSpace(SelectUrl(stdout).value) == SelectUrl(stdout).value
  {
    var lines := Split(stdout);
    if LastUrlIndex(lines).Some? {
      TrimSpaceIdempotent(lines[LastUrlIndex(lines).value]);
    }
  }

  /**
   * The scan of `GetStreamURL`: from the last line back to the first, trim
   * each line and stop at the first that starts with "http".
   */
  method ScanOutput(stdout: string) returns (url: string, found: bool)
    ensures found ==> SelectUrl(stdout) == Some(url)
    ensures !found ==> SelectUrl(stdout) == None && url == ""
  {
    var lines := Split(stdout);
    var i := |lines| - 1;
    while i >= 0
      invariant -1 <= i < |lines|
      invariant forall j :: i < j < |lines| ==> !IsUrlLine(lines[j])
    {
      var line := TrimSpace(lines[i]);
      if HasPrefix(line, Scheme) {
        LastUrlIndexIs(lines, i);
        return line, true;
      }
      i := i - 1;
    }
    return "", false;
  }

  /**
   * `SelectUrl` in declarative terms: it yields `u` exactly when some line
   * trims to `u`, is accepted, and no later line is accepted.
   */
  lemma SelectUrlCharacterized(stdout: string, u: string)
    ensures var lines := Split(stdout);
            SelectUrl(stdout) == Some(u) <==>
              exists i :: 0 <= i < |lines| && IsUrlLine(lines[i]) && u == TrimSpace(lines[i])
                          && forall j :: i < j < |lines| ==> !IsUrlLine(lines[j])
  {
    var lines := Split(stdout);
    if SelectUrl(stdout) == Some(u) {
      var k := LastUrlIndex(lines).value;
      assert IsUrlLine(lines[k]) && u == TrimSpace(lines[k]);
    }
    if i :| 0 <= i < |lines| && IsUrlLine(lines[i]) && u == TrimSpace(lines[i])
           && forall j :: i < j < |lines| ==> !IsUrlLine(lines[j]) {
      LastUrlIndexIs(lines, i);
    }
  }

  /** Scanning fails exactly when no line is accepted. */
  lemma SelectUrlNoneIff(stdout: string)
    ensures var lines := Split(stdout);
            SelectUrl(stdout).None? <==> forall j :: 0 <= j < |lines| ==> !IsUrlLine(lines[j])
  {
  }

  /** Empty output is the single empty line and names no URL. */
  lemma EmptyOutputHasNoUrl()
    ensures Split("") == [""]
    ensures SelectUrl("") == None
  {
  }

  /** A URL line printed last wins over everything printed before it. */
  lemma {:induction false} LastUrlLineWins(stdout: string, line: string)
    requires forall k :: 0 <= k < |line| ==> line[k] != Newline
    requires IsUrlLine(line)
    ensures SelectUrl(stdout + [Newline] + line) == Some(TrimSpace(line))
  {
    SplitAppendLine(stdout, line);
  }

  /** A line that is not a URL, printed last, changes nothing. */
  lemma {:induction false} TrailingNoiseIgnored(stdout: string, line: string)
    requires forall k :: 0 <= k < |line| ==> line[k] != Newline
    requires !IsUrlLine(line)
    ensures SelectUrl(stdout + [Newline] + line) == SelectUrl(stdout)
  {
    SplitAppendLine(stdout, line);
    var lines := Split(stdout);
    assert (lines + [line])[..|lines|] == lines;
  }

  /**
   * Warnings, then the URL, then the final newline: the URL is returned,
   * whatever the warnings say.
   */
  lemma {:induction false} WarningsThenUrl(warnings: string, url: string)
    requires forall k :: 0 <= k < |url| ==> url[k] != Newline
    requires IsUrlLine(url)
    ensures SelectUrl(warnings + [Newline] + url + [Newline]) == Some(TrimSpace(url))
  {
    assert warnings + [Newline] + url + [Newline] == warnings + [Newline] + url + [Newline] + "";
    TrailingNoiseIgnored(warnings + [Newline] + url, "");
    LastUrlLineWins(warnings, url);
  }

  /** The example of a warning line followed by a stream URL. */
  lemma ExampleOutput()
    ensures SelectUrl("WARNING: foo" + "\n" + "https://cdn.example.com/stream.m3u8" + "\n")
            == Some("https://cdn.example.com/stream.m3u8")
  {
    var a, b, c := "https://", "cdn.example.com", "/stream.m3u8";
    assert forall k :: 0 <= k < |a| ==> a[k] != Newline;
    assert forall k :: 0 <= k < |b| ==> b[k] != Newline;
    assert forall k :: 0 <= k < |c| ==> c[k] != Newline;
    var url := "https://cdn.example.com/stream.m3u8";
    assert url == a + b + c;
    assert forall k :: 0 <= k < |url| ==> url[k] != Newline;
    assert TrimLeft(url) == url;
    assert TrimRight(url) == url;
    assert IsUrlLine(url);
    WarningsThenUrl("WARNING: foo", url);
  }
}
