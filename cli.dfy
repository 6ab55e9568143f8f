/**
 * The command-line launcher (cmd/sqliter/main.go): deciding between a
 * URL and a local file, cutting a URL into the part to download and the
 * deep-link suffix, the served file name and the browser address.
 * Downloading, the temporary directory, the listener and the browser
 * launch are effects and are given as parameters or left out.
 */
module Cli {
  import opened Values
  import opened Text

  /** The database extensions tried, in this order. */
  const Extensions: seq<string> := [".db", ".sqlite", ".sqlite3", ".sdb", ".s3db", ".csv.db", ".xlsx.db"]

  /** The argument names a URL: it starts with "http://" or "https://". */
  predicate IsURL(arg: string)
  {
    HasPrefix(arg, "http://") || HasPrefix(arg, "https://")
  }

  /** Position `end` of `arg` closes a path segment: the end, a '/' or a '?'. */
  predicate EndsSegment(arg: string, end: int)
  {
    end == |arg| || (0 <= end < |arg| && (arg[end] == '/' || arg[end] == '?'))
  }

  /** The first case-insensitive occurrence of `ext` closes a segment. */
  predicate Qualifies(arg: string, ext: string)
  {
    var idx := IndexOf(Lower(arg), ext);
    idx != -1 && EndsSegment(arg, idx + |ext|)
  }

  /** Where the split falls for a qualifying extension: just after its first occurrence. */
  function SplitEnd(arg: string, ext: string): (r: nat)
    requires Qualifies(arg, ext)
    ensures r <= |arg|
  {
    IndexOf(Lower(arg), ext) + |ext|
  }

  /** Which extensions of `exts` qualify, in order. */
  function Hits(arg: string, exts: seq<string>): (h: seq<bool>)
    ensures |h| == |exts|
    ensures forall j :: 0 <= j < |exts| ==> h[j] == Qualifies(arg, exts[j])
  {
    seq(|exts|, j requires 0 <= j < |exts| => Qualifies(arg, exts[j]))
  }

  /** The first position at or after `k` that is set, or -1. */
  function First(hits: seq<bool>, k: nat): (r: int)
    requires k <= |hits|
    ensures r == -1 || (k <= r < |hits| && hits[r])
    decreases |hits| - k
  {
    if k == |hits| then -1
    else if hits[k] then k
    else First(hits, k + 1)
  }

  /** The position found is the first set one from `k` on; -1 means none is set. */
  lemma {:induction false} FirstSpec(hits: seq<bool>, k: nat)
    requires k <= |hits|
    ensures First(hits, k) == -1 <==> forall j :: k <= j < |hits| ==> !hits[j]
    ensures First(hits, k) != -1 ==> forall j :: k <= j < First(hits, k) ==> !hits[j]
    decreases |hits| - k
  {
    if k < |hits| && !hits[k] {
      FirstSpec(hits, k + 1);
    }
  }

  /** What the cut at a qualifying extension gives: the download URL ends with the extension, the suffix starts a segment or the query, or is empty. */
  lemma SplitEndSpec(arg: string, ext: string)
    requires Qualifies(arg, ext)
    ensures var end := SplitEnd(arg, ext);
      && HasSuffix(Lower(arg[..end]), ext)
      && (end == |arg| || arg[end] == '/' || arg[end] == '?')
  {
    var end := SplitEnd(arg, ext);
    var idx := IndexOf(Lower(arg), ext);
    assert Lower(arg[..end])[end - |ext|..] == Lower(arg)[idx..idx + |ext|];
  }

  /** The download URL and the suffix: cut after the first qualifying extension of `exts`, or the whole argument and "". */
  function Cut(arg: string, exts: seq<string>): (string, string)
  {
    var k := First(Hits(arg, exts), 0);
    if k == -1 then (arg, "")
    else
      var end := SplitEnd(arg, exts[k]);
      (arg[..end], arg[end..])
  }

  /**
   * The two pieces always make up the argument again; the suffix is empty
   * or starts a new segment or the query; a cut download URL ends with the
   * extension that decided it (ignoring ASCII case), which is the first
   * that qualifies; with no qualifying extension nothing is cut.
   */
  lemma CutSpec(arg: string, exts: seq<string>)
    ensures Cut(arg, exts).0 + Cut(arg, exts).1 == arg
    ensures Cut(arg, exts).1 == "" || Cut(arg, exts).1[0] == '/' || Cut(arg, exts).1[0] == '?'
    ensures (forall k :: 0 <= k < |exts| ==> !Qualifies(arg, exts[k])) ==> Cut(arg, exts) == (arg, "")
    ensures var k := First(Hits(arg, exts), 0);
      k != -1 ==> |Cut(arg, exts).0| == SplitEnd(arg, exts[k]) && HasSuffix(Lower(Cut(arg, exts).0), exts[k])
  {
    var hits := Hits(arg, exts);
    var k := First(hits, 0);
    if k == -1 {
      assert Cut(arg, exts) == (arg, "");
    } else {
      assert Qualifies(arg, exts[k]);
      CutAt(arg, exts[k]);
    }
  }

  /** The cut at a qualifying extension restores the argument and starts the suffix at a segment end. */
  lemma CutAt(arg: string, ext: string)
    requires Qualifies(arg, ext)
    ensures var end := SplitEnd(arg, ext);
      && arg[..end] + arg[end..] == arg
      && (arg[end..] == "" || arg[end..][0] == '/' || arg[end..][0] == '?')
      && HasSuffix(Lower(arg[..end]), ext)
  {
    var end := SplitEnd(arg, ext);
    SplitEndSpec(arg, ext);
    assert arg[..end] + arg[end..] == arg;
  }

  /** One probe of the extension loop: the end of the first occurrence of `ext` when it closes a segment, else -1. */
  method SegmentEnd(arg: string, lowerArg: string, ext: string) returns (end: int)
    requires lowerArg == Lower(arg)
    ensures end != -1 <==> Qualifies(arg, ext)
    ensures end != -1 ==> Qualifies(arg, ext) && end == SplitEnd(arg, ext)
  {
    var idx := IndexOf(lowerArg, ext);
    end := -1;
    if idx != -1 {
      var e := idx + |ext|;
      if e == |arg| || (e < |arg| && (arg[e] == '/' || arg[e] == '?')) {
        end := e;
      }
    }
  }

  /**
   * The extension loop of main: each extension in turn, its first
   * case-insensitive occurrence only, stopping at the first one that
   * closes a segment; then the cut.
   */
  method DownloadTarget(arg: string, exts: seq<string>) returns (downloadURL: string, suffix: string)
    ensures (downloadURL, suffix) == Cut(arg, exts)
  {
    var lowerArg := Lower(arg);
    ghost var hits := Hits(arg, exts);
    var splitIdx := -1;
    var i := 0;
    while i < |exts|
      invariant 0 <= i <= |exts|
      invariant First(hits, 0) == First(hits, i)
    {
      var end := SegmentEnd(arg, lowerArg, exts[i]);
      if end != -1 {
        splitIdx := end;
        break;
      }
      i := i + 1;
    }
    if splitIdx != -1 {
      downloadURL := arg[..splitIdx];
      suffix := arg[splitIdx..];
    } else {
      downloadURL := arg;
      suffix := "";
    }
  }

  /** The text after the last '/' of `u` (all of `u` when it has none). */
  function LastSegment(u: string): string
  {
    var parts := Split(u, '/');
    parts[|parts| - 1]
  }

  /** The last segment holds no '/', ends `u`, and is either all of `u` or preceded by a '/'. */
  lemma LastSegmentSpec(u: string)
    ensures '/' !in LastSegment(u)
    ensures HasSuffix(u, LastSegment(u))
    ensures LastSegment(u) == u || HasSuffix(u, "/" + LastSegment(u))
  {
    var parts := Split(u, '/');
    var n := |parts|;
    var last := parts[n - 1];
    JoinSplit(u, '/');
    if n >= 2 {
      var init := parts[..n - 1];
      assert parts == init + [last];
      JoinSnoc(init, last, "/");
      var front := Join(init, "/");
      assert u == front + ("/" + last);
      assert u[|u| - |"/" + last|..] == "/" + last;
      assert u[|u| - |last|..] == last;
    } else {
      assert u == last;
    }
  }

  /** The file name to download to: the last segment of the download URL, or "downloaded.db" when that is empty. */
  function FileName(downloadURL: string): string
  {
    var last := LastSegment(downloadURL);
    if last == "" then "downloaded.db" else last
  }

  /**
   * The file name is never empty and holds no '/'; it is "downloaded.db"
   * when the URL is empty or ends in '/', and otherwise the URL's final
   * segment, which the URL ends with.
   */
  lemma FileNameSpec(downloadURL: string)
    ensures var name := FileName(downloadURL); name != "" && '/' !in name
    ensures downloadURL == "" || downloadURL[|downloadURL| - 1] == '/' ==> FileName(downloadURL) == "downloaded.db"
    ensures downloadURL != "" && downloadURL[|downloadURL| - 1] != '/' ==>
      var name := FileName(downloadURL);
      HasSuffix(downloadURL, name) && (name == downloadURL || HasSuffix(downloadURL, "/" + name))
  {
    LastSegmentSpec(downloadURL);
    var last := LastSegment(downloadURL);
  }

  /**
   * The directory served and the file name the browser opens. A URL is
   * served from the temporary directory `tmpDir` under its file name
   * followed by the suffix; a local directory is served itself with no
   * file name; a local file is served from its directory under its base
   * name.
   */
  method Target(arg: string, tmpDir: string, absPath: string, isDir: bool, dirOf: string -> string, baseOf: string -> string)
    returns (dataDir: string, fileName: string)
    ensures IsURL(arg) ==> dataDir == tmpDir && fileName == FileName(Cut(arg, Extensions).0) + Cut(arg, Extensions).1
    ensures !IsURL(arg) && isDir ==> dataDir == absPath && fileName == ""
    ensures !IsURL(arg) && !isDir ==> dataDir == dirOf(absPath) && fileName == baseOf(absPath)
  {
    if IsURL(arg) {
      var downloadURL, suffix := DownloadTarget(arg, Extensions);
      var parts := Split(downloadURL, '/');
      fileName := "";
      if |parts| > 0 {
        fileName := parts[|parts| - 1];
      }
      if fileName == "" {
        fileName := "downloaded.db";
      }
      assert fileName == FileName(downloadURL);
      if suffix != "" {
        fileName := fileName + suffix;
      }
      dataDir := tmpDir;
    } else if isDir {
      dataDir := absPath;
      fileName := "";
    } else {
      dataDir := dirOf(absPath);
      fileName := baseOf(absPath);
    }
  }

  /** The address opened in the browser: the loopback listener, then "/" and the file name when there is one. */
  function BrowserURL(port: nat, fileName: string): (r: string)
  {
    "http://[::1]:" + IntToString(port) + (if fileName != "" then "/" + fileName else "")
  }

  /** The port reads back from the address, and what follows it is "/" + fileName exactly when fileName is non-empty. */
  lemma BrowserURLSpec(port: nat, fileName: string)
    ensures var base := "http://[::1]:" + IntToString(port);
      && HasPrefix(BrowserURL(port, fileName), base)
      && ParseInt(IntToString(port)) == Some(port as int)
      && (fileName == "" <==> BrowserURL(port, fileName) == base)
      && (fileName != "" ==> TrimPrefix(BrowserURL(port, fileName), base) == "/" + fileName)
  {
    ParseIntToString(port);
    var base := "http://[::1]:" + IntToString(port);
    var r := BrowserURL(port, fileName);
    assert r[..|base|] == base;
    if fileName != "" {
      assert r[|base|..] == "/" + fileName;
    }
  }
}
