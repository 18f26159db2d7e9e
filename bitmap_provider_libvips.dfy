/** The bitmap provider for maps whose tiles were cut by LibVips: a tile of zoom level
    `z`, row `r` and column `c` is the file `z/r/c<extension>` under the map's
    directory. Decoding the image file is left to a decoder given as a parameter. */
module BitmapProviderLibVips {
  import opened Wrappers
  import opened Decimal

  /** `File.separator` on the platform the application runs on. */
  const Separator: char := '/'

  /** The two attributes of a map that the provider reads: the path of its directory
      (as `java.io.File` keeps it, without a trailing separator unless it is the root)
      and the extension of its tile images, such as ".jpg". */
  datatype MapFiles = MapFiles(directory: string, imageExtension: string)

  /** Both fields are final: they are captured once when the provider is built. */
  datatype Provider = Provider(directory: string, imageExtension: string)

  /** The data a tile carries: the zoom level when it is an `Integer`, anything else
      otherwise. */
  datatype TileData = IntegerData(zoom: int) | OtherData

  datatype Tile = Tile(data: TileData, row: int, column: int)

  /** The pixel format asked of the decoder (`inPreferredConfig`); the provider only
      ever asks for RGB_565. */
  datatype BitmapConfig = Rgb565

  const LoadingConfig: BitmapConfig := Rgb565

  /** What decoding a file gives: a bitmap, `null`, or an exception or
      `OutOfMemoryError`. */
  datatype DecodeOutcome<B> = Decoded(bitmap: B) | NoBitmap | Threw

  /** A tile key as recovered from a relative path. */
  datatype TileKey = TileKey(zoom: int, row: int, column: int)

  /** The constructor: both fields come from the map. */
  function NewProvider(m: MapFiles): (p: Provider)
    ensures p.directory == m.directory && p.imageExtension == m.imageExtension
  {
    Provider(m.directory, m.imageExtension)
  }

  /** The path of a tile relative to the map directory: zoom, separator, row,
      separator, column, then the extension with no separator before it. */
  function RelativePath(zoom: int, row: int, column: int, extension: string): (r: string)
    ensures var z := IntToDecimal(zoom);
            |r| > |z| && r[..|z|] == z && r[|z|] == Separator
    ensures |r| >= |extension| && r[|r| - |extension|..] == extension
  {
    IntToDecimal(zoom) + [Separator] + IntToDecimal(row) + [Separator] + IntToDecimal(column) + extension
  }

  /** `new File(directory, child).getPath()` for a child that does not start with a
      separator: an empty parent stands for the root. */
  function Resolve(directory: string, child: string): (r: string)
    ensures |r| > |child| && r[|r| - |child| - 1] == Separator && r[|r| - |child|..] == child
    ensures directory == "" || directory == [Separator] ==> r == [Separator] + child
    ensures directory != "" && directory != [Separator] ==>
              |r| == |directory| + 1 + |child| && r[..|directory|] == directory
  {
    if directory == "" || directory == [Separator] then [Separator] + child
    else directory + [Separator] + child
  }

  /** The file read for tile (zoom, row, column). */
  function TileFilePath(p: Provider, zoom: int, row: int, column: int): (r: string)
    ensures var rel := RelativePath(zoom, row, column, p.imageExtension);
            |r| > |rel| && r[|r| - |rel| - 1] == Separator && r[|r| - |rel|..] == rel
  {
    Resolve(p.directory, RelativePath(zoom, row, column, p.imageExtension))
  }

  /** `getBitmap`: `None` (null) when the tile data is not an `Integer`, and when the
      decoder yields nothing or throws. */
  function GetBitmap<B>(p: Provider, tile: Tile, decode: (string, BitmapConfig) -> DecodeOutcome<B>): (r: Option<B>)
    ensures !tile.data.IntegerData? ==> r == None
    ensures r.Some? ==> tile.data.IntegerData?
                        && decode(TileFilePath(p, tile.data.zoom, tile.row, tile.column), Rgb565) == Decoded(r.value)
    ensures tile.data.IntegerData? ==>
              var outcome := decode(TileFilePath(p, tile.data.zoom, tile.row, tile.column), Rgb565);
              outcome.Decoded? ==> r == Some(outcome.bitmap)
  {
    match tile.data
    case OtherData => None
    case IntegerData(zoom) =>
      match decode(TileFilePath(p, zoom, tile.row, tile.column), LoadingConfig)
      case Decoded(b) => Some(b)
      case NoBitmap => None
      case Threw => None
  }

  /** Splits `s` at every occurrence of `sep`. */
  function SplitOn(s: string, sep: char): (parts: seq<string>)
    ensures |parts| > 0
    decreases |s|
  {
    if s == [] then [[]]
    else if s[0] == sep then [[]] + SplitOn(s[1..], sep)
    else
      var rest := SplitOn(s[1..], sep);
      [[s[0]] + rest[0]] + rest[1..]
  }

  /** Reads a relative tile path back into its key, given the extension. */
  function ParseRelativePath(s: string, extension: string): Option<TileKey> {
    if |s| < |extension| || s[|s| - |extension|..] != extension then None
    else
      var parts := SplitOn(s[..|s| - |extension|], Separator);
      if |parts| != 3 then None
      else
        match (ParseInt(parts[0]), ParseInt(parts[1]), ParseInt(parts[2]))
        case (Some(z), Some(r), Some(c)) => Some(TileKey(z, r, c))
        case _ => None
  }

  lemma {:induction false} SplitOnWithout(a: string, sep: char)
    requires sep !in a
    ensures SplitOn(a, sep) == [a]
    decreases |a|
  {
    if a != [] {
      assert a[0] in a;
      SplitOnWithout(a[1..], sep);
      assert [a[0]] + a[1..] == a;
    }
  }

  lemma {:induction false} SplitOnFirst(a: string, b: string, sep: char)
    requires sep !in a
    ensures SplitOn(a + [sep] + b, sep) == [a] + SplitOn(b, sep)
    decreases |a|
  {
    var s := a + [sep] + b;
    if a == [] {
      assert s[1..] == b;
    } else {
      assert a[0] in a && s[0] == a[0];
      assert s[1..] == a[1..] + [sep] + b;
      SplitOnFirst(a[1..], b, sep);
      assert [a[0]] + a[1..] == a;
    }
  }

  lemma SeparatorNotInDecimal(i: int)
    ensures Separator !in IntToDecimal(i)
  {
  }

  /** The relative path determines the tile: zoom first, then row, then column. */
  lemma RelativePathRoundTrip(zoom: int, row: int, column: int, extension: string)
    ensures ParseRelativePath(RelativePath(zoom, row, column, extension), extension)
            == Some(TileKey(zoom, row, column))
  {
    var z, r, c := IntToDecimal(zoom), IntToDecimal(row), IntToDecimal(column);
    var s := RelativePath(zoom, row, column, extension);
    assert s == (z + [Separator] + r + [Separator] + c) + extension;
    assert s[..|s| - |extension|] == z + [Separator] + (r + [Separator] + c);
    SeparatorNotInDecimal(zoom);
    SeparatorNotInDecimal(row);
    SeparatorNotInDecimal(column);
    SplitOnFirst(z, r + [Separator] + c, Separator);
    SplitOnFirst(r, c, Separator);
    SplitOnWithout(c, Separator);
    IntToDecimalRoundTrip(zoom);
    IntToDecimalRoundTrip(row);
    IntToDecimalRoundTrip(column);
  }

  /** Two different tiles of one provider never share a file. */
  lemma TileFilesAreDistinct(p: Provider, z1: int, r1: int, c1: int, z2: int, r2: int, c2: int)
    requires TileFilePath(p, z1, r1, c1) == TileFilePath(p, z2, r2, c2)
    ensures z1 == z2 && r1 == r2 && c1 == c2
  {
    var s1 := RelativePath(z1, r1, c1, p.imageExtension);
    var s2 := RelativePath(z2, r2, c2, p.imageExtension);
    var prefix := if p.directory == "" || p.directory == [Separator] then [Separator]
                  else p.directory + [Separator];
    assert TileFilePath(p, z1, r1, c1) == prefix + s1;
    assert TileFilePath(p, z2, r2, c2) == prefix + s2;
    assert s1 == (prefix + s1)[|prefix|..];
    assert s2 == (prefix + s2)[|prefix|..];
    RelativePathRoundTrip(z1, r1, c1, p.imageExtension);
    RelativePathRoundTrip(z2, r2, c2, p.imageExtension);
  }

  /** The extension follows the last digit of the column, with no separator between. */
  lemma ExtensionFollowsColumn(zoom: int, row: int, column: int, extension: string)
    ensures var s := RelativePath(zoom, row, column, extension);
            |s| > |extension| && s[|s| - |extension|..] == extension
            && IsDigit(s[|s| - |extension| - 1])
  {
    var c := IntToDecimal(column);
    var s := RelativePath(zoom, row, column, extension);
    assert s == (IntToDecimal(zoom) + [Separator] + IntToDecimal(row) + [Separator] + c) + extension;
    assert c[|c| - 1] in c;
    if c[|c| - 1] == '-' {
      assert c == "-" + NatToDecimal(-column);
    }
  }

  /** The tile file lies under the directory captured from the map, one separator
      below it. */
  lemma TileFileUnderMapDirectory(m: MapFiles, zoom: int, row: int, column: int)
    requires m.directory != "" && m.directory != [Separator]
    ensures var path := TileFilePath(NewProvider(m), zoom, row, column);
            |path| > |m.directory| + 1
            && path[..|m.directory|] == m.directory
            && path[|m.directory|] == Separator
            && path[|m.directory| + 1..] == RelativePath(zoom, row, column, m.imageExtension)
  {
  }

  /** Tile data that is not an `Integer` gives `null` whatever the file system holds:
      the decoder is never consulted. */
  lemma NonIntegerDataGivesNull<B>(p: Provider, tile: Tile, decode: (string, BitmapConfig) -> DecodeOutcome<B>)
    requires !tile.data.IntegerData?
    ensures GetBitmap(p, tile, decode) == None
  {
  }

  /** A bitmap is returned exactly when the tile data is an `Integer` zoom level and
      decoding that tile's file in RGB_565 succeeds; a `null` from the decoder, an
      exception or an `OutOfMemoryError` all give `null`. */
  lemma GetBitmapDecodesTileFile<B>(p: Provider, tile: Tile, decode: (string, BitmapConfig) -> DecodeOutcome<B>, b: B)
    ensures GetBitmap(p, tile, decode) == Some(b) <==>
            tile.data.IntegerData?
            && decode(TileFilePath(p, tile.data.zoom, tile.row, tile.column), Rgb565) == Decoded(b)
  {
  }
}
