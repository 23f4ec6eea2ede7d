/**
  The target derivation of the `download_document` tool (server.py:83-96):
  the remote URL, the name the file is saved under and its local path. The
  streaming transfer is a parameter saying whether it completed.
 */
module Download {
  import opened JsonValue
  import Config

  const ApiSegment: string := "/api/"
  const PdfSuffix: string := ".pdf"

  /** What the tool answers: "Successfully downloaded file to: <abspath>"
      or "Failed to download file: ...". */
  datatype DownloadReply = Saved(localPath: string) | TransferFailed

  // ---------------------------------------------------------------------------
  // Path and name helpers

  /** POSIX `os.path.basename`: the part of `p` after its last '/'. */
  function BaseName(p: string): (name: string)
    ensures '/' !in name
    ensures |name| <= |p| && p[|p| - |name|..] == name
    ensures |name| < |p| ==> p[|p| - |name| - 1] == '/'
    decreases |p|
  {
    if p == [] || p[|p| - 1] == '/' then [] else BaseName(p[..|p| - 1]) + [p[|p| - 1]]
  }

  /** ASCII lower-casing of one character. */
  function LowerChar(c: char): char {
    if 'A' <= c <= 'Z' then (c as int + 32) as char else c
  }

  /** `s.lower()`, restricted to ASCII letters. */
  function Lower(s: string): (r: string)
    ensures |r| == |s|
  {
    seq(|s|, k requires 0 <= k < |s| => LowerChar(s[k]))
  }

  predicate EndsWith(s: string, suffix: string) {
    |suffix| <= |s| && s[|s| - |suffix|..] == suffix
  }

  /** `name.lower().endswith(".pdf")`. */
  predicate HasPdfSuffix(name: string) {
    EndsWith(Lower(name), PdfSuffix)
  }

  /** server.py:93-94: append ".pdf" unless the name already ends with it,
      in any letter case. */
  function WithPdfSuffix(name: string): (r: string)
    ensures HasPdfSuffix(r)
    ensures name <= r
    ensures r == name <==> HasPdfSuffix(name)
    ensures !HasPdfSuffix(name) ==> r == name + PdfSuffix
  {
    if HasPdfSuffix(name) then name
    else
      LowerAppend(name, PdfSuffix);
      name + PdfSuffix
  }

  /** POSIX `os.path.join(dir, name)`: an absolute `name` replaces `dir`. */
  function PathJoin(dir: string, name: string): string {
    if |name| > 0 && name[0] == '/' then name
    else if dir == [] || dir[|dir| - 1] == '/' then dir + name
    else dir + "/" + name
  }

  // ---------------------------------------------------------------------------
  // The derivation

  /** The name chosen by server.py:89-94: the caller's name unless it is
      None or empty, else the last segment of the path; then the suffix rule. */
  function SaveName(relativePath: string, saveFilename: Option<string>): string {
    var chosen :=
      if saveFilename.None? || saveFilename.value == "" then BaseName(relativePath)
      else saveFilename.value;
    WithPdfSuffix(chosen)
  }

  /** server.py:96. */
  function LocalPath(relativePath: string, saveFilename: Option<string>): string {
    PathJoin(Config.DownloadsDir, SaveName(relativePath, saveFilename))
  }

  /** `download_document` as the source writes it: `save_filename` is
      reassigned step by step, then the transfer either completes or raises. */
  method DownloadDocument(relativePath: string, transferred: bool, saveFilename: Option<string> := None)
    returns (downloadUrl: string, localPath: string, reply: DownloadReply)
    ensures downloadUrl == Config.BaseUrl + ApiSegment + relativePath
    ensures localPath == LocalPath(relativePath, saveFilename)
    ensures HasPdfSuffix(localPath)
    ensures reply == if transferred then Saved(localPath) else TransferFailed
  {
    downloadUrl := Config.BaseUrl + ApiSegment + relativePath;
    var name := if saveFilename.Some? then saveFilename.value else "";
    if name == "" {
      name := BaseName(relativePath);
    }
    if !HasPdfSuffix(name) {
      LowerAppend(name, PdfSuffix);
      name := name + PdfSuffix;
    }
    localPath := PathJoin(Config.DownloadsDir, name);
    JoinKeepsSuffix(Config.DownloadsDir, name);
    reply := if transferred then Saved(localPath) else TransferFailed;
  }

  // ---------------------------------------------------------------------------
  // Properties

  /** Lower-casing distributes over concatenation. */
  lemma LowerAppend(s: string, t: string)
    ensures Lower(s + t) == Lower(s) + Lower(t)
    ensures t == PdfSuffix ==> Lower(t) == t
  {
  }

  /** Joining leaves the end of the name in place, so the saved path ends in
      ".pdf" exactly when the name does. */
  lemma JoinKeepsSuffix(dir: string, name: string)
    ensures EndsWith(PathJoin(dir, name), name)
    ensures HasPdfSuffix(name) ==> HasPdfSuffix(PathJoin(dir, name))
  {
  }

  /** Applying the suffix rule to its own output changes nothing. */
  lemma WithPdfSuffixIdempotent(name: string)
    ensures WithPdfSuffix(WithPdfSuffix(name)) == WithPdfSuffix(name)
  {
  }

  /** The suffix test ignores letter case: "report.PDF" and "report.Pdf" are
      kept as they are, "report" and the empty name gain ".pdf". */
  lemma PdfSuffixCases()
    ensures WithPdfSuffix("report.PDF") == "report.PDF"
    ensures WithPdfSuffix("report.Pdf") == "report.Pdf"
    ensures WithPdfSuffix("report") == "report.pdf"
    ensures WithPdfSuffix("") == ".pdf"
  {
    assert Lower("report.PDF")[6..] == ".pdf";
    assert Lower("report.Pdf")[6..] == ".pdf";
    assert Lower("report")[2..] == "port";
  }

  /** The last segment is what follows the last '/': the whole path when it
      has no '/', and the empty string after a trailing '/'. */
  lemma BaseNameAfterLastSlash(dirs: string, segment: string)
    requires '/' !in segment
    ensures BaseName(segment) == segment
    ensures BaseName(dirs + "/" + segment) == segment
  {
    var p := dirs + "/" + segment;
    var n := BaseName(p);
    assert p[|p| - |segment|..] == segment;
    assert p[|p| - |segment| - 1] == '/';
  }

  /** With no caller name, the file lands directly in the downloads directory
      under the path's last segment, with ".pdf" added unless present. */
  lemma DerivedNameStaysInDownloads(relativePath: string, saveFilename: Option<string>)
    requires saveFilename.None? || saveFilename.value == ""
    ensures SaveName(relativePath, saveFilename) == WithPdfSuffix(BaseName(relativePath))
    ensures '/' !in SaveName(relativePath, saveFilename)
    ensures LocalPath(relativePath, saveFilename) ==
      Config.DownloadsDir + "/" + SaveName(relativePath, saveFilename)
  {
    var base := BaseName(relativePath);
    var name := WithPdfSuffix(base);
    if !HasPdfSuffix(base) {
      assert name == base + PdfSuffix;
      assert '/' !in PdfSuffix;
    }
    assert |name| > 0 && name[0] != '/' by {
      assert name[0] in name;
    }
    assert Config.DownloadsDir[|Config.DownloadsDir| - 1] != '/';
  }

  /** A caller-supplied name is kept (up to the suffix rule); a relative one is
      placed in the downloads directory, an absolute one replaces it. */
  lemma CallerNameUsed(relativePath: string, name: string)
    requires name != ""
    ensures SaveName(relativePath, Some(name)) == WithPdfSuffix(name)
    ensures name[0] != '/' ==>
      LocalPath(relativePath, Some(name)) == Config.DownloadsDir + "/" + WithPdfSuffix(name)
    ensures name[0] == '/' ==> LocalPath(relativePath, Some(name)) == WithPdfSuffix(name)
  {
  }

  /** A path ending in '/' has an empty last segment, saved as "downloads/.pdf". */
  lemma TrailingSlashGivesBarePdf(dirs: string)
    ensures LocalPath(dirs + "/", None) == "downloads/.pdf"
  {
  }

  /** "uploads/2024/04/01/doc" with no name is saved as "downloads/doc.pdf". */
  lemma DocumentScenario()
    ensures LocalPath("uploads/2024/04/01/doc", None) == "downloads/doc.pdf"
  {
    var p := "uploads/2024/04/01/doc";
    BaseNameAfterLastSlash("uploads/2024/04/01", "doc");
    assert p == "uploads/2024/04/01" + "/" + "doc";
    assert !HasPdfSuffix("doc");
    DerivedNameStaysInDownloads(p, None);
  }
}
