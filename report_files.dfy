/** What `step_child_report_sourece_download` (knbackup/src/command/download.rs)
    decides for one report, as a pure planner: where its files go, how its
    text is normalised before rendering, and which renders and image
    downloads it asks for. */
module ReportFiles {
  import opened Wrappers
  import opened Ints
  import opened Text
  import opened Fs
  import opened Records

  /** `DownloadSource`: one report, ready to be written out. */
  datatype DownloadSource = DownloadSource(
    sourceType: string, sourceId: u64, reportDate: UtcDateTime, reportContent: Option<string>,
    authorName: string, centerName: Option<string>, classId: u64, className: string,
    childId: u64, childName: string, attachedImages: seq<ResourceImage>)

  /** The only source type the downloader produces. */
  const ReportType := "알림장"
  const ChildDirPrefix := "키즈노트 "
  const ReportDirName := "알림장"
  const TitlePrefix := "제목 : "
  const DefaultExtension := "png"

  // ----- dates, as chrono formats them -----

  /** `%Y%m%d`: eight digits. */
  function DateStamp(d: UtcDateTime): (r: string)
    ensures |r| == 8 && AllDigits(r)
  {
    assert Pow10(4) == 10000 && Pow10(2) == 100;
    DigitsFit(d.year, 4);
    DigitsFit(d.month, 2);
    DigitsFit(d.day, 2);
    ZeroPad(d.year, 4) + ZeroPad(d.month, 2) + ZeroPad(d.day, 2)
  }

  /** `%Y-%m`: the month directory. */
  function MonthDir(d: UtcDateTime): string {
    ZeroPad(d.year, 4) + "-" + ZeroPad(d.month, 2)
  }

  /** `"제목 : {%Y년 %-m월 %-e일} {source_type}"`. */
  function Title(src: DownloadSource): string {
    var d := src.reportDate;
    TitlePrefix + ZeroPad(d.year, 4) + "년 " + Digits(d.month) + "월 " + Digits(d.day) + "일 " + src.sourceType
  }

  // ----- paths -----

  /** `output_dir/"키즈노트 {child}"/"알림장"/"{YYYY-MM}"`. */
  function BaseDir(outputDir: string, src: DownloadSource): (p: Path)
    ensures p.root == outputDir && |p.parts| == 3
    ensures p.parts[0] == ChildDirPrefix + src.childName && p.parts[1] == ReportDirName
    ensures p.parts[2] == MonthDir(src.reportDate)
  {
    Path(outputDir, [ChildDirPrefix + src.childName, ReportDirName, MonthDir(src.reportDate)])
  }

  /** `_{child}_{type}_`, between the date stamp and the report id. */
  function Middle(src: DownloadSource): string {
    "_" + src.childName + "_" + src.sourceType + "_"
  }

  /** `{YYYYMMDD}_{child}_{type}_{id}`, shared by every file of a report. */
  function Stem(src: DownloadSource): string {
    DateStamp(src.reportDate) + Middle(src) + Digits(src.sourceId)
  }

  const TextSuffix := ".txt"
  const ImageSuffix := ".jpg"

  function TextFile(outputDir: string, src: DownloadSource): (p: Path)
    ensures Parent(p) == Some(BaseDir(outputDir, src))
  {
    Push(BaseDir(outputDir, src), Stem(src) + TextSuffix)
  }

  function ImageFile(outputDir: string, src: DownloadSource): (p: Path)
    ensures Parent(p) == Some(BaseDir(outputDir, src))
  {
    Push(BaseDir(outputDir, src), Stem(src) + ImageSuffix)
  }

  /** The name without its trailing separators and "." components, which
      `Path::components` skips before the last component is taken. */
  function StripTrailing(name: string): string
    decreases |name|
  {
    if |name| > 0 && name[|name| - 1] == '/' then StripTrailing(name[..|name| - 1])
    else if |name| > 1 && name[|name| - 2..] == "/." then StripTrailing(name[..|name| - 2])
    else name
  }

  /** What `StripTrailing` removes is a tail of separators and dots, and what
      it keeps ends neither in a separator nor in a "." component. */
  lemma {:induction false} StripTrailingShape(name: string)
    ensures var s := StripTrailing(name);
      |s| <= |name| && s == name[..|s|] &&
      (forall k :: |s| <= k < |name| ==> name[k] == '/' || name[k] == '.') &&
      (s == [] || s[|s| - 1] != '/') && (|s| < 2 || s[|s| - 2..] != "/.")
    decreases |name|
  {
    if |name| > 0 && name[|name| - 1] == '/' {
      StripTrailingShape(name[..|name| - 1]);
    } else if |name| > 1 && name[|name| - 2..] == "/." {
      assert name[|name| - 2] == name[|name| - 2..][0] && name[|name| - 1] == name[|name| - 2..][1];
      StripTrailingShape(name[..|name| - 2]);
    }
  }

  /** A name that ends neither in a separator nor in "/." is left alone. */
  lemma StripNothing(name: string)
    requires name == [] || name[|name| - 1] != '/'
    requires |name| < 2 || name[|name| - 2] != '/'
    ensures StripTrailing(name) == name
  {
    if |name| > 1 {
      assert name[|name| - 2..][0] == name[|name| - 2];
    }
  }

  /** What follows the last `c` contains none. */
  lemma LastSegmentLacks(s: string, c: char, i: int)
    requires -1 <= i < |s| && forall j :: i < j < |s| ==> s[j] != c
    ensures Lacks(s[i + 1..], c)
  {
    var last := s[i + 1..];
    forall k | 0 <= k < |last| ensures last[k] != c {
      assert last[k] == s[i + 1 + k];
    }
  }

  /** The component after the last separator, unless it is empty, "." or "..". */
  function LastComponent(s: string): (f: Option<string>)
    ensures f.Some? ==> |f.value| <= |s| && f.value == s[|s| - |f.value|..]
    ensures f.Some? ==> Lacks(f.value, '/') && f.value != "" && f.value != "." && f.value != ".."
  {
    var i := LastIndexOf(s, '/');
    var last := s[i + 1..];
    LastSegmentLacks(s, '/', i);
    if last == "" || last == "." || last == ".." then None else Some(last)
  }

  /** The last path component of a name, as `Path::file_name` gives it:
      trailing separators and "." components are skipped first, and the empty
      name, the root and the components "." and ".." have none. */
  function FileName(name: string): Option<string> {
    LastComponent(StripTrailing(name))
  }

  lemma StripTrailingSeparator(name: string)
    ensures StripTrailing(name + "/") == StripTrailing(name) && StripTrailing(name + "/.") == StripTrailing(name)
  {
    var a, b := name + "/", name + "/.";
    assert a[..|a| - 1] == name;
    assert b[|b| - 2..] == "/." && b[..|b| - 2] == name;
  }

  /** A separator, or a "." component, at the end of a name changes neither
      its file name nor its extension. */
  lemma TrailingSeparatorIgnored(name: string)
    ensures FileName(name + "/") == FileName(name) && FileName(name + "/.") == FileName(name)
    ensures Extension(name + "/") == Extension(name) && Extension(name + "/.") == Extension(name)
  {
    StripTrailingSeparator(name);
    assert FileName(name + "/") == FileName(name) && FileName(name + "/.") == FileName(name);
  }

  /** `Path::extension`: the text after the last dot of the file name, unless
      that dot is the name's first character or there is no dot at all. */
  function Extension(name: string): (e: Option<string>)
    ensures e.Some? ==> Lacks(e.value, '.') && Lacks(e.value, '/')
    ensures e.Some? ==> FileName(name).Some? && var f := FileName(name).value;
                          |f| > |e.value| + 1 && f[|f| - |e.value| - 1] == '.' && f[|f| - |e.value|..] == e.value
    ensures e.None? <==> FileName(name).None? || LastIndexOf(FileName(name).value, '.') <= 0
  {
    match FileName(name)
    case None => None
    case Some(f) =>
      var i := LastIndexOf(f, '.');
      if i <= 0 then None
      else
        Some(f[i + 1..])
  }

  /** The extension a downloaded attachment is saved with. */
  function AttachmentExtension(originalFileName: string): string {
    Extension(originalFileName).GetOr(DefaultExtension)
  }

  /** `_{imageId}.{ext}`, after the stem. */
  function AttachmentSuffix(image: ResourceImage): string {
    "_" + (Digits(image.id) + ("." + AttachmentExtension(image.originalFileName)))
  }

  function AttachmentFile(outputDir: string, src: DownloadSource, image: ResourceImage): (p: Path)
    ensures Parent(p) == Some(BaseDir(outputDir, src))
  {
    Push(BaseDir(outputDir, src), Stem(src) + AttachmentSuffix(image))
  }

  /** A name without a slash is its own file name, when it is not "." or "..". */
  lemma PlainFileName(stem: string, ext: string)
    requires stem != [] && ext != [] && Lacks(stem, '/') && Lacks(ext, '/')
    ensures FileName(stem + "." + ext) == Some(stem + "." + ext)
  {
    var name := stem + "." + ext;
    forall k | 0 <= k < |name| ensures name[k] != '/' {
      if k < |stem| { assert name[k] == stem[k]; }
      else if k > |stem| { assert name[k] == ext[k - |stem| - 1]; }
    }
    StripNothing(name);
    assert LastIndexOf(name, '/') == -1;
    assert name[0..] == name;
  }

  /** In "stem.ext" with a dot-free `ext`, the dot after the stem is the only
      one from there on. */
  lemma DotAfterStem(stem: string, ext: string)
    requires Lacks(ext, '.')
    ensures var name := stem + "." + ext;
      name[|stem|] == '.' && forall k :: |stem| < k < |name| ==> name[k] != '.'
  {
    var name := stem + "." + ext;
    forall k | |stem| < k < |name| ensures name[k] != '.' {
      assert name[k] == ext[k - |stem| - 1];
    }
  }

  /** In "stem.ext" with a dot-free `ext`, the last dot is the one after the stem. */
  lemma PlainLastDot(stem: string, ext: string)
    requires Lacks(ext, '.')
    ensures LastIndexOf(stem + "." + ext, '.') == |stem|
  {
    DotAfterStem(stem, ext);
    LastIndexOfAt(stem + "." + ext, '.', |stem|);
  }

  /** A plain "stem.ext" name keeps its extension. */
  lemma ExtensionOfPlainName(stem: string, ext: string)
    requires stem != [] && ext != []
    requires Lacks(stem, '/') && Lacks(ext, '/') && Lacks(ext, '.')
    ensures Extension(stem + "." + ext) == Some(ext)
    ensures AttachmentExtension(stem + "." + ext) == ext
  {
    var name := stem + "." + ext;
    PlainFileName(stem, ext);
    PlainLastDot(stem, ext);
    assert name[|stem| + 1..] == ext;
  }

  /** A name without a dot, or whose only dot is its first character, has no
      extension, so its attachment is saved as "png". */
  lemma NoExtensionMeansPng(name: string)
    requires Lacks(name, '/')
    requires Lacks(name, '.') || (|name| > 0 && name[0] == '.' && Lacks(name[1..], '.'))
    ensures Extension(name) == None
    ensures AttachmentExtension(name) == DefaultExtension
  {
    if |name| > 1 { assert name[|name| - 2] != '/'; }
    StripNothing(name);
    assert LastIndexOf(name, '/') == -1;
    assert name[0..] == name;
    if !Lacks(name, '.') {
      assert forall k :: 0 < k < |name| ==> name[k] == name[1..][k - 1];
    }
  }

  /** `a ++ x == b ++ y` with `a` and `b` of one length splits into two equalities. */
  lemma SplitEqual(a: string, x: string, b: string, y: string)
    requires |a| == |b| && a + x == b + y
    ensures a == b && x == y
  {
    assert a == (a + x)[..|a|] && b == (b + y)[..|b|];
    assert x == (a + x)[|a|..] && y == (b + y)[|b|..];
  }

  /** The number of digits `u` starts with. */
  function DigitRun(u: string): nat {
    if u == [] || !IsDigit(u[0]) then 0 else 1 + DigitRun(u[1..])
  }

  lemma {:induction false} DigitRunOf(x: string, s: string)
    requires AllDigits(x) && |s| > 0 && !IsDigit(s[0])
    ensures DigitRun(x + s) == |x|
  {
    if x != [] {
      assert (x + s)[1..] == x[1..] + s;
      DigitRunOf(x[1..], s);
    }
  }

  /** Two strings of digits, each followed by a non-digit, that start equal
      strings are equal, and so are the rests. */
  lemma DigitsThenSeparator(x: string, s: string, y: string, t: string)
    requires AllDigits(x) && AllDigits(y)
    requires |s| > 0 && |t| > 0 && !IsDigit(s[0]) && !IsDigit(t[0])
    requires x + s == y + t
    ensures x == y && s == t
  {
    DigitRunOf(x, s);
    DigitRunOf(y, t);
    SplitEqual(x, s, y, t);
  }

  lemma StemParts(a: DownloadSource, s: string)
    ensures Stem(a) + s == DateStamp(a.reportDate) + (Middle(a) + (Digits(a.sourceId) + s))
  {
  }

  /** Two reports of the same child share a file name only if they share the
      date stamp and the report id, and then the rest of the names agree. */
  lemma {:induction false} StemsSeparate(a: DownloadSource, b: DownloadSource, s: string, t: string)
    requires a.childName == b.childName && a.sourceType == b.sourceType
    requires |s| > 0 && |t| > 0 && !IsDigit(s[0]) && !IsDigit(t[0])
    requires Stem(a) + s == Stem(b) + t
    ensures DateStamp(a.reportDate) == DateStamp(b.reportDate) && a.sourceId == b.sourceId && s == t
  {
    var da, db := DateStamp(a.reportDate), DateStamp(b.reportDate);
    var xa, xb := Digits(a.sourceId), Digits(b.sourceId);
    StemParts(a, s);
    StemParts(b, t);
    SplitEqual(da, Middle(a) + (xa + s), db, Middle(b) + (xb + t));
    SplitEqual(Middle(a), xa + s, Middle(b), xb + t);
    DigitsThenSeparator(xa, s, xb, t);
    DigitsInjective(a.sourceId, b.sourceId);
  }

  /** Two files pushed onto directories of the same depth are equal only if their names are. */
  lemma SameFile(p: Path, n: string, q: Path, m: string)
    requires |p.parts| == |q.parts| && Push(p, n) == Push(q, m)
    ensures n == m
  {
    assert Push(p, n).parts[|p.parts|] == n;
  }

  /** Within one child's backup a text file, a rendered image and an
      attachment never share a path. */
  lemma {:induction false} FileKindsNeverCollide(outputDir: string, a: DownloadSource, b: DownloadSource,
                                                 image: ResourceImage)
    requires a.childName == b.childName && a.sourceType == b.sourceType
    ensures TextFile(outputDir, a) != ImageFile(outputDir, b)
    ensures TextFile(outputDir, a) != AttachmentFile(outputDir, b, image)
    ensures ImageFile(outputDir, a) != AttachmentFile(outputDir, b, image)
  {
    var ba, bb := BaseDir(outputDir, a), BaseDir(outputDir, b);
    var at := AttachmentSuffix(image);
    if TextFile(outputDir, a) == ImageFile(outputDir, b) {
      SameFile(ba, Stem(a) + TextSuffix, bb, Stem(b) + ImageSuffix);
      StemsSeparate(a, b, TextSuffix, ImageSuffix);
    }
    if TextFile(outputDir, a) == AttachmentFile(outputDir, b, image) {
      SameFile(ba, Stem(a) + TextSuffix, bb, Stem(b) + at);
      StemsSeparate(a, b, TextSuffix, at);
    }
    if ImageFile(outputDir, a) == AttachmentFile(outputDir, b, image) {
      SameFile(ba, Stem(a) + ImageSuffix, bb, Stem(b) + at);
      StemsSeparate(a, b, ImageSuffix, at);
    }
  }

  /** Two reports of one child with different ids or different dates never
      share a text file or a rendered image. */
  lemma {:induction false} ReportFilesDistinct(outputDir: string, a: DownloadSource, b: DownloadSource)
    requires a.childName == b.childName && a.sourceType == b.sourceType
    ensures TextFile(outputDir, a) == TextFile(outputDir, b) ==>
              a.sourceId == b.sourceId && DateStamp(a.reportDate) == DateStamp(b.reportDate)
    ensures ImageFile(outputDir, a) == ImageFile(outputDir, b) ==>
              a.sourceId == b.sourceId && DateStamp(a.reportDate) == DateStamp(b.reportDate)
  {
    var ba, bb := BaseDir(outputDir, a), BaseDir(outputDir, b);
    if TextFile(outputDir, a) == TextFile(outputDir, b) {
      SameFile(ba, Stem(a) + TextSuffix, bb, Stem(b) + TextSuffix);
      StemsSeparate(a, b, TextSuffix, TextSuffix);
    }
    if ImageFile(outputDir, a) == ImageFile(outputDir, b) {
      SameFile(ba, Stem(a) + ImageSuffix, bb, Stem(b) + ImageSuffix);
      StemsSeparate(a, b, ImageSuffix, ImageSuffix);
    }
  }

  /** Two attachments of one child share a path only when they belong to the
      same report (same id and date) and have the same image id. */
  lemma {:induction false} AttachmentsDistinct(outputDir: string, a: DownloadSource, b: DownloadSource,
                                               ia: ResourceImage, ib: ResourceImage)
    requires a.childName == b.childName && a.sourceType == b.sourceType
    ensures AttachmentFile(outputDir, a, ia) == AttachmentFile(outputDir, b, ib) ==>
              a.sourceId == b.sourceId && DateStamp(a.reportDate) == DateStamp(b.reportDate) && ia.id == ib.id
              && AttachmentExtension(ia.originalFileName) == AttachmentExtension(ib.originalFileName)
  {
    var sa, sb := AttachmentSuffix(ia), AttachmentSuffix(ib);
    if AttachmentFile(outputDir, a, ia) == AttachmentFile(outputDir, b, ib) {
      SameFile(BaseDir(outputDir, a), Stem(a) + sa, BaseDir(outputDir, b), Stem(b) + sb);
      StemsSeparate(a, b, sa, sb);
      var ea, eb := "." + AttachmentExtension(ia.originalFileName), "." + AttachmentExtension(ib.originalFileName);
      assert Digits(ia.id) + ea == sa[1..] == sb[1..] == Digits(ib.id) + eb;
      DigitsThenSeparator(Digits(ia.id), ea, Digits(ib.id), eb);
      DigitsInjective(ia.id, ib.id);
      assert ea[1..] == AttachmentExtension(ia.originalFileName) && eb[1..] == AttachmentExtension(ib.originalFileName);
    }
  }

  // ----- report text -----

  /** `str::replace("  ", " ")`: one left-to-right pass over non-overlapping
      pairs of spaces, each pair becoming one space. */
  function ReplaceDoubleSpace(s: string): (r: string)
    ensures |r| <= |s|
    ensures s != [] ==> r != []
  {
    if |s| >= 2 && s[0] == ' ' && s[1] == ' ' then " " + ReplaceDoubleSpace(s[2..])
    else if s == [] then []
    else [s[0]] + ReplaceDoubleSpace(s[1..])
  }

  /** `s` with its spaces removed. */
  function NonSpaces(s: string): string {
    if s == [] then [] else (if s[0] == ' ' then [] else [s[0]]) + NonSpaces(s[1..])
  }

  /** A run of n spaces becomes a run of ceil(n/2) spaces, not a single one. */
  lemma {:induction false} ReplaceHalvesSpaceRuns(n: nat)
    ensures ReplaceDoubleSpace(Repeat(' ', n)) == Repeat(' ', (n + 1) / 2)
  {
    var s := Repeat(' ', n);
    if n >= 2 {
      assert s[2..] == Repeat(' ', n - 2);
      ReplaceHalvesSpaceRuns(n - 2);
    } else if n == 1 {
      assert s[1..] == [];
    }
  }

  /** Only spaces are removed: every other character survives, in order. */
  lemma {:induction false} ReplaceKeepsNonSpaces(s: string)
    ensures NonSpaces(ReplaceDoubleSpace(s)) == NonSpaces(s)
  {
    if |s| >= 2 && s[0] == ' ' && s[1] == ' ' {
      ReplaceKeepsNonSpaces(s[2..]);
      var r := " " + ReplaceDoubleSpace(s[2..]);
      assert r[1..] == ReplaceDoubleSpace(s[2..]);
      assert s[1..][1..] == s[2..];
    } else if s != [] {
      ReplaceKeepsNonSpaces(s[1..]);
      var r := [s[0]] + ReplaceDoubleSpace(s[1..]);
      assert r[1..] == ReplaceDoubleSpace(s[1..]);
    }
  }

  /** A line without its `'\r'` at the end, as `lines` drops it before a `'\n'`. */
  function StripCr(line: string): string {
    if |line| > 0 && line[|line| - 1] == '\r' then line[..|line| - 1] else line
  }

  /** `str::lines`: the pieces between line feeds; a final line feed does not
      start an empty last line, and a `'\r'` just before a line feed is dropped. */
  function Lines(s: string): (ls: seq<string>)
    ensures forall k :: 0 <= k < |ls| ==> Lacks(ls[k], '\n')
    ensures s != [] <==> ls != []
    decreases |s|
  {
    if s == [] then []
    else
      var i := IndexOf(s, '\n');
      if i == |s| then [s]
      else
        var rest := Lines(s[i + 1..]);
        assert forall k :: 1 <= k < |rest| + 1 ==> ([StripCr(s[..i])] + rest)[k] == rest[k - 1];
        [StripCr(s[..i])] + rest
  }

  /** The lines, each followed by a line feed. */
  function Unlines(ls: seq<string>): string {
    if ls == [] then [] else ls[0] + "\n" + Unlines(ls[1..])
  }

  lemma UnlinesCons(line: string, ls: seq<string>)
    ensures Unlines([line] + ls) == line + "\n" + Unlines(ls)
  {
    assert ([line] + ls)[1..] == ls;
  }

  /** The first line of a text without carriage returns, up to its first line feed. */
  lemma LinesCons(s: string, i: nat)
    requires Lacks(s, '\r') && i == IndexOf(s, '\n') && i < |s|
    ensures Lines(s) == [s[..i]] + Lines(s[i + 1..])
  {
    assert StripCr(s[..i]) == s[..i] by {
      if i > 0 { assert s[..i][i - 1] == s[i - 1]; }
    }
  }

  /** The text after the first line feed keeps the shape `LinesRoundTrip` asks for. */
  lemma RestOfLines(s: string, i: nat)
    requires Lacks(s, '\r') && s != [] && s[|s| - 1] == '\n' && i < |s|
    ensures Lacks(s[i + 1..], '\r') && (s[i + 1..] == [] || s[i + 1..][|s| - i - 2] == '\n')
  {
    var rest := s[i + 1..];
    forall k | 0 <= k < |rest| ensures rest[k] != '\r' { assert rest[k] == s[i + 1 + k]; }
  }

  /** `s` is what comes before index `i`, the character there, and the rest. */
  lemma SplitAt(s: string, i: nat)
    requires i < |s|
    ensures s == s[..i] + [s[i]] + s[i + 1..]
  {
  }

  /** One line feed further: the round trip of the text after the first line
      feed gives back the whole text. */
  lemma LinesStep(s: string, i: nat)
    requires Lacks(s, '\r') && i == IndexOf(s, '\n') && i < |s|
    requires Unlines(Lines(s[i + 1..])) == s[i + 1..]
    ensures Unlines(Lines(s)) == s
  {
    var line, rest := s[..i], s[i + 1..];
    LinesCons(s, i);
    UnlinesCons(line, Lines(rest));
    SplitAt(s, i);
  }

  /** Splitting into lines loses nothing when the text has no carriage
      returns and ends with a line feed. */
  lemma {:induction false} LinesRoundTrip(s: string)
    requires Lacks(s, '\r') && (s == [] || s[|s| - 1] == '\n')
    ensures Unlines(Lines(s)) == s
    decreases |s|
  {
    if s != [] {
      var i := IndexOf(s, '\n');
      RestOfLines(s, i);
      LinesRoundTrip(s[i + 1..]);
      LinesStep(s, i);
    }
  }

  /** The lines handed to the renderers: double spaces halved, split into
      lines, each line trimmed. */
  function NormalizeContent(content: string): seq<string> {
    TrimEach(Lines(ReplaceDoubleSpace(content)))
  }

  /** Each line trimmed, in order. */
  function TrimEach(ls: seq<string>): (r: seq<string>)
    ensures |r| == |ls| && forall k :: 0 <= k < |ls| ==> r[k] == Trim(ls[k])
  {
    if ls == [] then [] else [Trim(ls[0])] + TrimEach(ls[1..])
  }

  /** Trimming cannot bring in a character the line lacks. */
  lemma TrimKeepsLacks(line: string, c: char)
    requires Lacks(line, c)
    ensures Lacks(Trim(line), c)
  {
    var i := TrimCut(line);
    var r := Trim(line);
    forall j | 0 <= j < |r| ensures r[j] != c { assert r[j] == line[i + j]; }
  }

  /** Every normalised line is trimmed and holds no line feed, and a text
      that is not blank always leaves at least one line, so the downloader's
      "no lines" check never fires on text that passed the blank check. */
  lemma NormalizedLines(content: string)
    ensures var ls := NormalizeContent(content);
            forall k :: 0 <= k < |ls| ==> Trim(ls[k]) == ls[k] && Lacks(ls[k], '\n')
    ensures Trim(content) != [] ==> NormalizeContent(content) != []
  {
    var raw := Lines(ReplaceDoubleSpace(content));
    var ls := NormalizeContent(content);
    forall k | 0 <= k < |ls| ensures Trim(ls[k]) == ls[k] && Lacks(ls[k], '\n') {
      TrimIdempotent(raw[k]);
      TrimKeepsLacks(raw[k], '\n');
    }
    if Trim(content) != [] {
      assert content != [];
    }
  }

  /** The text is rendered when it is present and not blank. */
  predicate ShouldRender(content: Option<string>) {
    content.Some? && Trim(content.value) != [] && NormalizeContent(content.value) != []
  }

  lemma RenderIffNotBlank(content: Option<string>)
    ensures ShouldRender(content) <==> content.Some? && !AllWhitespace(content.value)
  {
    if content.Some? {
      TrimBlank(content.value);
      NormalizedLines(content.value);
    }
  }

  // ----- what a report asks for -----

  /** A request to the opaque renderers (`text_to_txt_file`,
      `text_to_image_file`) or to `download_image`. */
  datatype Action =
    | RenderText(path: Path, title: string, centerName: Option<string>, authorName: string,
                 lines: seq<string>, date: UtcDateTime)
    | RenderImage(path: Path, title: string, centerName: Option<string>, authorName: string,
                  lines: seq<string>, date: UtcDateTime)
    | FetchImage(url: string, fileSize: i32, fileTime: FileTime, path: Path)

  /** Every attachment, in order, saved under the report's directory with
      the report's creation time truncated to whole seconds. */
  function FetchActions(outputDir: string, src: DownloadSource): (acts: seq<Action>)
    ensures |acts| == |src.attachedImages|
    ensures forall k :: 0 <= k < |acts| ==>
              var img := src.attachedImages[k];
              acts[k] == FetchImage(img.original, img.fileSize, FileTime(src.reportDate.unixSeconds, 0),
                                    AttachmentFile(outputDir, src, img))
  {
    var imgs := src.attachedImages;
    seq(|imgs|, k requires 0 <= k < |imgs| =>
      FetchImage(imgs[k].original, imgs[k].fileSize, FileTime(src.reportDate.unixSeconds, 0),
                 AttachmentFile(outputDir, src, imgs[k])))
  }

  /** Both renders of a non-blank text, then every attachment; in test mode
      nothing at all. */
  function SourceActions(outputDir: string, src: DownloadSource, test: bool): seq<Action> {
    if test then []
    else
      var renders :=
        if ShouldRender(src.reportContent) then
          var lines := NormalizeContent(src.reportContent.value);
          [RenderText(TextFile(outputDir, src), Title(src), src.centerName, src.authorName, lines, src.reportDate),
           RenderImage(ImageFile(outputDir, src), Title(src), src.centerName, src.authorName, lines, src.reportDate)]
        else [];
      renders + FetchActions(outputDir, src)
  }

  /** The path an action writes. */
  function Target(a: Action): Path {
    match a
    case RenderText(p, _, _, _, _, _) => p
    case RenderImage(p, _, _, _, _, _) => p
    case FetchImage(_, _, _, p) => p
  }

  /** What a report asks for: nothing in test mode; otherwise the two renders
      exactly when its text is present and not blank, followed by one
      download per attachment in order, each stamped with the creation time
      in whole seconds; and everything lands in the report's month directory. */
  lemma ReportPlan(outputDir: string, src: DownloadSource, test: bool)
    ensures test ==> SourceActions(outputDir, src, test) == []
    ensures var acts := SourceActions(outputDir, src, test);
            var renders := if src.reportContent.Some? && !AllWhitespace(src.reportContent.value) then 2 else 0;
            && (!test ==> |acts| == renders + |src.attachedImages|)
            && (!test && renders == 2 ==>
                  acts[0].RenderText? && acts[1].RenderImage?
                  && acts[0].lines == acts[1].lines == NormalizeContent(src.reportContent.value))
            && (!test ==> acts[renders..] == FetchActions(outputDir, src))
            && (forall k :: 0 <= k < |acts| ==> Parent(Target(acts[k])) == Some(BaseDir(outputDir, src)))
  {
    RenderIffNotBlank(src.reportContent);
  }

  /** The actions of a batch of reports, report after report. */
  function BatchActions(outputDir: string, sources: seq<DownloadSource>, test: bool): seq<Action> {
    if sources == [] then []
    else BatchActions(outputDir, sources[..|sources| - 1], test)
         + SourceActions(outputDir, sources[|sources| - 1], test)
  }
}
