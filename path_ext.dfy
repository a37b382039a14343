/** The string functions behind the rename handler's extension fix-up:
    `str.rfind`, the extension half of `os.path.splitext` on POSIX paths,
    `str.endswith`, and the fix-up itself. */
module PathExt {

  /** `s.rfind(c)`: the last index of `c` in `s`, or -1 when there is none. */
  function RFind(s: string, c: char): (r: int)
    ensures -1 <= r < |s|
    ensures r == -1 <==> c !in s
    ensures 0 <= r ==> s[r] == c
    ensures forall j :: r < j < |s| ==> s[j] != c
  {
    if s == [] then -1
    else if s[|s| - 1] == c then |s| - 1
    else
      var k := RFind(s[..|s| - 1], c);
      assert s == s[..|s| - 1] + [s[|s| - 1]];
      k
  }

  /** Some character of `p[lo..hi]` is not a dot. */
  predicate HasNonDot(p: string, lo: int, hi: int)
    requires 0 <= lo <= hi <= |p|
  {
    exists i :: lo <= i < hi && p[i] != '.'
  }

  /** `os.path.splitext(p)[1]` with '/' as separator: the extension starts at
      the last '.' of the last path component, provided some character other
      than '.' comes before it in that component; otherwise it is empty. */
  function Ext(p: string): (e: string)
    ensures |e| <= |p| && e == p[|p| - |e|..]
    ensures e != "" ==> e[0] == '.'
    ensures forall j :: 0 < j < |e| ==> e[j] != '.'
    ensures forall j :: 0 <= j < |e| ==> e[j] != '/'
  {
    var sep := RFind(p, '/');
    var dot := RFind(p, '.');
    if sep < dot && HasNonDot(p, sep + 1, dot) then
      p[dot..]
    else ""
  }

  /** An independent description of where an extension starts: `p[k]` is the
      last '.' of `p`, no '/' follows it, and the path component holding it
      has a character other than '.' before position `k`. */
  ghost predicate ExtStartsAt(p: string, k: int) {
    0 <= k < |p| && p[k] == '.' &&
    (forall j :: k < j < |p| ==> p[j] != '.' && p[j] != '/') &&
    exists i :: 0 <= i < k && p[i] != '.' && forall j :: i <= j < k ==> p[j] != '/'
  }

  /** A path has at most one extension start. */
  lemma ExtStartUnique(p: string, k: int, k': int)
    requires ExtStartsAt(p, k) && ExtStartsAt(p, k')
    ensures k == k'
  {
  }

  /** A non-empty `Ext` starts where the reference description says. */
  lemma ExtSound(p: string)
    requires Ext(p) != ""
    ensures ExtStartsAt(p, |p| - |Ext(p)|)
  {
    var sep := RFind(p, '/');
    var dot := RFind(p, '.');
    var i :| sep + 1 <= i < dot && p[i] != '.';
    assert forall j :: i <= j < dot ==> p[j] != '/';
  }

  /** Wherever the reference description places an extension, `Ext` finds one. */
  lemma ExtComplete(p: string, k: int)
    requires ExtStartsAt(p, k)
    ensures Ext(p) != ""
  {
    var sep := RFind(p, '/');
    var dot := RFind(p, '.');
    assert dot == k;
    var i :| 0 <= i < k && p[i] != '.' && forall j :: i <= j < k ==> p[j] != '/';
    assert i > sep;
  }

  /** `Ext` agrees with the reference description, both ways. */
  lemma ExtMatchesReference(p: string)
    ensures Ext(p) != "" <==> exists k :: ExtStartsAt(p, k)
    ensures Ext(p) != "" ==> ExtStartsAt(p, |p| - |Ext(p)|)
  {
    if Ext(p) != "" {
      ExtSound(p);
    }
    if k :| ExtStartsAt(p, k) {
      ExtComplete(p, k);
    }
  }

  /** `s.endswith(suffix)`; case-sensitive, and true for the empty suffix. */
  predicate EndsWith(s: string, suffix: string) {
    |suffix| <= |s| && s[|s| - |suffix|..] == suffix
  }

  /** `EndsWith` holds exactly when `s` is some string followed by `suffix`. */
  lemma EndsWithIffConcat(s: string, suffix: string)
    ensures EndsWith(s, suffix) <==> exists t :: s == t + suffix
  {
    if EndsWith(s, suffix) {
      assert s == s[..|s| - |suffix|] + suffix;
    }
    if t :| s == t + suffix {
      assert s[|s| - |suffix|..] == suffix;
    }
  }

  /** The rename fix-up: `new_name + ext` unless `new_name` already ends with
      `ext`. The result always ends with `ext`, is `newName` possibly extended,
      and is `newName` itself exactly when it already ended with `ext`. */
  function KeepExtension(newName: string, ext: string): (r: string)
    ensures EndsWith(r, ext)
    ensures |newName| <= |r| <= |newName| + |ext| && r[..|newName|] == newName
    ensures r == newName <==> EndsWith(newName, ext)
    ensures r == newName || r == newName + ext
  {
    if EndsWith(newName, ext) then newName
    else
      assert (newName + ext)[|newName + ext| - |ext|..] == ext;
      newName + ext
  }

  /** Applying the fix-up twice is the same as applying it once. */
  lemma KeepExtensionIdempotent(newName: string, ext: string)
    ensures KeepExtension(KeepExtension(newName, ext), ext) == KeepExtension(newName, ext)
  {
  }

  /** A name that does not start with '.' and has no '/' keeps the old
      file's extension through the fix-up, so a later rename sees it again. */
  lemma {:induction false} RenameKeepsExtension(oldName: string, newName: string)
    requires Ext(oldName) != ""
    requires newName != "" && newName[0] != '.' && '/' !in newName
    ensures Ext(KeepExtension(newName, Ext(oldName))) == Ext(oldName)
  {
    var e := Ext(oldName);
    var r := KeepExtension(newName, e);
    var k := |r| - |e|;
    assert r[k..] == e;
    assert forall j :: k < j < |r| ==> r[j] == e[j - k];
    assert r[k] == '.';
    assert k > 0;
    assert forall j :: 0 <= j < k ==> r[j] == newName[j];
    assert r[0] == newName[0];
    assert ExtStartsAt(r, k);
    ExtMatchesReference(r);
    ExtStartUnique(r, k, |r| - |Ext(r)|);
  }

  /** A name whose only dot leads has no extension. */
  lemma ExtOfDotFile()
    ensures Ext(".bashrc") == ""
  {
    assert RFind(".bashrc", '/') == -1 && RFind(".bashrc", '.') == 0;
  }

  /** A trailing dot is an extension on its own. */
  lemma ExtOfTrailingDot()
    ensures Ext("a.") == "."
  {
    assert RFind("a.", '/') == -1 && RFind("a.", '.') == 1;
    assert "a."[0] == 'a' && "a."[1..] == ".";
  }

  /** Only the part after the last dot is the extension. */
  lemma ExtOfDoubleExtension()
    ensures Ext("notes.tar.gz") == ".gz"
  {
    assert RFind("notes.tar.gz", '/') == -1 && RFind("notes.tar.gz", '.') == 9;
    assert "notes.tar.gz"[0] == 'n' && "notes.tar.gz"[9..] == ".gz";
  }

  /** A dot in a directory name is not an extension. */
  lemma ExtIgnoresDirectories()
    ensures Ext("v1.2/readme") == ""
  {
    assert RFind("v1.2/readme", '/') == 4 && RFind("v1.2/readme", '.') == 2;
  }

  /** Renaming "essay.pdf" to "report" gives "report.pdf". */
  lemma RenameEssayToReport()
    ensures KeepExtension("report", Ext("essay.pdf")) == "report.pdf"
  {
    assert RFind("essay.pdf", '/') == -1 && RFind("essay.pdf", '.') == 5;
    assert "essay.pdf"[0] == 'e' && "essay.pdf"[5..] == ".pdf";
    assert !EndsWith("report", ".pdf");
  }

  /** A name that already ends with the extension is kept. */
  lemma KeepExtensionKeepsExtendedName()
    ensures KeepExtension("report.pdf", ".pdf") == "report.pdf"
  {
    assert EndsWith("report.pdf", ".pdf") by {
      assert "report.pdf"[6..] == ".pdf";
    }
  }

  /** The comparison is case-sensitive: "Report.PDF" does not end with ".pdf". */
  lemma KeepExtensionIsCaseSensitive()
    ensures KeepExtension("Report.PDF", ".pdf") == "Report.PDF.pdf"
  {
    assert !EndsWith("Report.PDF", ".pdf") by {
      assert "Report.PDF"[6..][1] == 'P';
    }
  }
}
