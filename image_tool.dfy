/** The layout part of `ImageTool::text_to_image` (lib/kidsnote-sdk/src/tool/image_tool.rs):
    canvas size, white background, where each text row goes, and the file
    written with its times. Glyph rasterisation and image encoding are opaque:
    the encoded file is a parameter. */
module ImageTool {
  import opened Wrappers
  import opened Fs
  import ErrorTypes

  /** Bytes of a character in UTF-8. */
  function Utf8Width(c: char): nat {
    if c as int < 0x80 then 1 else if c as int < 0x800 then 2 else if c as int < 0x1_0000 then 3 else 4
  }

  /** `str::len`: the UTF-8 byte length, between one and four bytes per character. */
  function Utf8Len(s: string): (n: nat)
    ensures |s| <= n <= 4 * |s|
  {
    if s == [] then 0 else Utf8Width(s[0]) + Utf8Len(s[1..])
  }

  /** The longest byte length among the title and the content lines. */
  function LongestLine(title: string, contents: seq<string>): nat {
    if contents == [] then Utf8Len(title)
    else
      var m := LongestLine(title, contents[..|contents| - 1]);
      var n := Utf8Len(contents[|contents| - 1]);
      if m < n then n else m
  }

  /** `LongestLine` is the maximum: no line is longer, and the title or one line is that long. */
  lemma {:induction false} LongestLineIsMax(title: string, contents: seq<string>)
    ensures Utf8Len(title) <= LongestLine(title, contents)
    ensures forall k :: 0 <= k < |contents| ==> Utf8Len(contents[k]) <= LongestLine(title, contents)
    ensures LongestLine(title, contents) == Utf8Len(title)
            || exists k :: 0 <= k < |contents| && LongestLine(title, contents) == Utf8Len(contents[k])
  {
    if contents != [] {
      var init := contents[..|contents| - 1];
      LongestLineIsMax(title, init);
      assert forall k :: 0 <= k < |init| ==> contents[k] == init[k];
    }
  }

  /** The `max_len` loop. */
  method MaxLen(title: string, contents: seq<string>) returns (maxLen: nat)
    ensures maxLen == LongestLine(title, contents)
  {
    maxLen := Utf8Len(title);
    for i := 0 to |contents|
      invariant maxLen == LongestLine(title, contents[..i])
    {
      assert contents[..i + 1][..i] == contents[..i];
      if maxLen < Utf8Len(contents[i]) {
        maxLen := Utf8Len(contents[i]);
      }
    }
    assert contents[..|contents|] == contents;
  }

  const CharWidth: nat := 8
  const Margin: nat := 10
  const RowHeight: nat := 42
  const FontScale: nat := 24
  const TitleY: nat := 10
  const AuthorY: nat := 40
  const FirstRowY: nat := 90

  function Width(maxLen: nat): nat {
    maxLen * CharWidth + 2 * Margin
  }

  function Height(lines: nat): nat {
    (lines + 1) * RowHeight + 50
  }

  /** The y of content row `k`: the f32 `y_position` starts at 90 and grows by
      24 * 1.5 = 36, which f32 holds exactly. */
  function RowY(k: nat): nat {
    FirstRowY + k * 36
  }

  /** The canvas is big enough for its text: at 8 pixels per byte, every line
      fits between the left margin and a right margin of the same size, and
      every content row's full 24-pixel height lies above the bottom edge. */
  lemma TextFitsCanvas(title: string, contents: seq<string>)
    ensures Margin + CharWidth * Utf8Len(title) + Margin <= Width(LongestLine(title, contents))
    ensures forall k :: 0 <= k < |contents| ==>
              Margin + CharWidth * Utf8Len(contents[k]) + Margin <= Width(LongestLine(title, contents))
    ensures forall k :: 0 <= k < |contents| ==> RowY(k) + FontScale <= Height(|contents|)
  {
    LongestLineIsMax(title, contents);
  }

  datatype Rgb = Rgb(r: bv8, g: bv8, b: bv8)
  const White := Rgb(255, 255, 255)
  const Black := Rgb(0, 0, 0)

  /** `RgbImage`: width by height pixels, row after row. */
  class RgbImage {
    const width: nat
    const height: nat
    const pixels: array<Rgb>

    /** `RgbImage::new`: every pixel black. */
    constructor (width: nat, height: nat)
      ensures this.width == width && this.height == height
      ensures fresh(pixels) && pixels.Length == width * height
      ensures forall i :: 0 <= i < pixels.Length ==> pixels[i] == Black
    {
      this.width := width;
      this.height := height;
      pixels := new Rgb[width * height](_ => Black);
    }

    /** The `pixels_mut` loop: every pixel becomes white. */
    method FillWhite()
      modifies pixels
      ensures forall i :: 0 <= i < pixels.Length ==> pixels[i] == White
    {
      for i := 0 to pixels.Length
        invariant forall j :: 0 <= j < i ==> pixels[j] == White
      {
        pixels[i] := White;
      }
    }
  }

  /** One `draw_text_mut` call: the text's top-left corner and the text. */
  datatype Draw = Draw(x: int, y: int, text: string)

  const AuthorLabel := "작성자 : "

  /** Where the three kinds of text go: the title at (10, 10), the author line
      at (10, 40), content line k at (10, 90 + 36k). */
  method TextRows(title: string, authorName: string, contents: seq<string>) returns (draws: seq<Draw>)
    ensures |draws| == |contents| + 2
    ensures draws[0] == Draw(Margin, TitleY, title)
    ensures draws[1] == Draw(Margin, AuthorY, AuthorLabel + authorName)
    ensures forall k :: 0 <= k < |contents| ==> draws[k + 2] == Draw(Margin, RowY(k), contents[k])
  {
    draws := [Draw(Margin, TitleY, title), Draw(Margin, AuthorY, AuthorLabel + authorName)];
    var y := FirstRowY;
    for i := 0 to |contents|
      invariant |draws| == i + 2 && y == RowY(i)
      invariant draws[0] == Draw(Margin, TitleY, title)
      invariant draws[1] == Draw(Margin, AuthorY, AuthorLabel + authorName)
      invariant forall k :: 0 <= k < i ==> draws[k + 2] == Draw(Margin, RowY(k), contents[k])
    {
      draws := draws + [Draw(Margin, y, contents[i])];
      y := y + FontScale * 3 / 2;
    }
  }

  /** How a call ends: it returns, or it panics (`img.save(..).expect(..)`). */
  datatype Exit<T> = Returned(value: T) | Panicked(message: string)

  /** The picture part of `text_to_image`: a white canvas sized to the
      longest line and the number of lines, and the rows drawn on it. */
  method Canvas(title: string, authorName: string, contents: seq<string>)
    returns (img: RgbImage, draws: seq<Draw>)
    ensures fresh(img) && fresh(img.pixels)
    ensures img.width == Width(LongestLine(title, contents)) && img.height == Height(|contents|)
    ensures img.pixels.Length == img.width * img.height
    ensures forall i :: 0 <= i < img.pixels.Length ==> img.pixels[i] == White
    ensures |draws| == |contents| + 2 && draws[0] == Draw(Margin, TitleY, title)
    ensures draws[1] == Draw(Margin, AuthorY, AuthorLabel + authorName)
    ensures forall k :: 0 <= k < |contents| ==> draws[k + 2] == Draw(Margin, RowY(k), contents[k])
  {
    var maxLen := MaxLen(title, contents);
    var width := maxLen * CharWidth + 20;
    var height := (|contents| + 1) * RowHeight + 50;
    img := new RgbImage(width, height);
    img.FillWhite();
    draws := TextRows(title, authorName, contents);
  }

  /** `text_to_image`: lays out the canvas, creates the parent directory
      (ignoring failure), saves the encoded image (panicking if that fails) and
      sets both file times to `fileTime` (ignoring failure). Whenever it
      returns, it returns `Ok(())`. */
  method TextToImage(fs: FileSystem, title: string, authorName: string, contents: seq<string>,
                     imagePath: Path, fileTime: FileTime, encoded: seq<bv8>, faults: IoFaults, now: FileTime)
    returns (exit: Exit<Result<(), ErrorTypes.AuthError>>, img: RgbImage, draws: seq<Draw>)
    modifies fs
    ensures fresh(img) && fresh(img.pixels)
    ensures img.width == Width(LongestLine(title, contents)) && img.height == Height(|contents|)
    ensures img.pixels.Length == img.width * img.height
    ensures forall i :: 0 <= i < img.pixels.Length ==> img.pixels[i] == White
    ensures |draws| == |contents| + 2 && draws[0] == Draw(Margin, TitleY, title)
    ensures draws[1] == Draw(Margin, AuthorY, AuthorLabel + authorName)
    ensures forall k :: 0 <= k < |contents| ==> draws[k + 2] == Draw(Margin, RowY(k), contents[k])
    ensures fs.dirs == DirsAfter(old(fs.dirs), imagePath, faults)
    ensures exit.Panicked? <==> faults.createFile || faults.write
    ensures exit.Returned? ==> exit.value == Success(())
    ensures exit.Returned? ==>
              var t := if faults.setTimes then now else fileTime;
              fs.files == old(fs.files)[imagePath := FileEntry(encoded, t, t)]
    ensures exit.Panicked? && faults.createFile ==> fs.files == old(fs.files)
    ensures exit.Panicked? && !faults.createFile ==> fs.files == old(fs.files)[imagePath := FileEntry([], now, now)]
  {
    img, draws := Canvas(title, authorName, contents);
    var parent := Parent(imagePath);
    if parent.Some? && parent.value !in fs.dirs {
      var _ := fs.CreateDirAll(parent.value, faults.createDir);
    }

    var saved := fs.CreateFile(imagePath, faults.createFile, now);
    if saved {
      saved := fs.WriteAll(imagePath, encoded, faults.write, now);
    }
    if !saved {
      return Panicked("Unable to save image"), img, draws;
    }

    var _ := fs.SetFileTimes(imagePath, fileTime, fileTime, faults.setTimes);
    exit := Returned(Success(()));
  }
}
