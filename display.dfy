/**
 * The background map and the arithmetic that turns the three counters into
 * tiles: `uitoa` to decimal digits, one leading-zero tile for a single digit,
 * and `base + c - ' '` for every digit character.
 */
module Display {
  import opened Bytes
  import opened Timekeeping

  /** A background cell, (column, row). */
  type Cell = (nat, nat)

  /** `init_bkg(0)` fills the map with tile 0; the map holds every cell written since. */
  function TileAt(bkg: map<Cell, byte>, c: Cell): byte {
    if c in bkg then bkg[c] else 0
  }

  predicate IsDigit(c: char) {
    '0' <= c <= '9'
  }

  predicate AllDigits(s: string) {
    forall i :: 0 <= i < |s| ==> IsDigit(s[i])
  }

  function DigitChar(d: nat): (c: char)
    requires d < 10
    ensures IsDigit(c) && c as int - '0' as int == d
  {
    ('0' as int + d) as char
  }

  /** `uitoa(n, buffer, 10)`: the decimal digits of `n`, most significant first. */
  function Uitoa(n: nat): (s: string)
    ensures 1 <= |s| && AllDigits(s)
    ensures s[0] == '0' ==> n == 0
    ensures n < 10 ==> |s| == 1
    ensures 10 <= n < 100 ==> |s| == 2
    ensures 100 <= n < 1000 ==> |s| == 3
  {
    if n < 10 then [DigitChar(n)] else Uitoa(n / 10) + [DigitChar(n % 10)]
  }

  /** A string of decimal digits read back as a number. */
  function DecimalValue(s: string): nat
    requires AllDigits(s)
  {
    if s == [] then 0 else 10 * DecimalValue(s[..|s| - 1]) + (s[|s| - 1] as int - '0' as int)
  }

  /** `uitoa` loses nothing: its digits read back as the number converted. */
  lemma {:induction false} UitoaRoundTrip(n: nat)
    ensures DecimalValue(Uitoa(n)) == n
  {
    if n >= 10 {
      UitoaRoundTrip(n / 10);
      var s := Uitoa(n);
      assert s[..|s| - 1] == Uitoa(n / 10);
    }
  }

  /** `num_zeros`: one leading-zero tile for a value of a single digit, none otherwise. */
  function NumZeros(v: byte): (z: byte)
    ensures z + |Uitoa(v)| == if v < 100 then 2 else 3
  {
    if v > 9 then 0 else 1
  }

  /** The tile of an ASCII character in a table whose first tile, `base`, is the space. */
  function CharTile(base: byte, c: char): (t: byte)
    ensures c == ' ' ==> t == base
    ensures IsDigit(c) ==> t == Trunc(base + 16 + (c as int - '0' as int))
  {
    Trunc(base + c as int - ' ' as int)
  }

  /** The leading-zero tile, `base + 16`: the tile of '0'. */
  function ZeroTile(base: byte): (t: byte)
    ensures t == CharTile(base, '0')
  {
    Trunc(base + 16)
  }

  /** The tiles that walking `buffer` produces: one per digit character, others skipped. */
  function DigitTiles(base: byte, buffer: string): (tiles: seq<byte>)
    ensures AllDigits(buffer) ==> |tiles| == |buffer|
    ensures AllDigits(buffer) ==> forall i :: 0 <= i < |buffer| ==> tiles[i] == CharTile(base, buffer[i])
  {
    if buffer == [] then []
    else
      var c := buffer[|buffer| - 1];
      DigitTiles(base, buffer[..|buffer| - 1]) + if IsDigit(c) then [CharTile(base, c)] else []
  }

  /** Everything `draw_numbers_ascii` writes, left to right: the leading zeros, then the digits. */
  function NumberTiles(base: byte, zeros: nat, buffer: string): (tiles: seq<byte>)
  {
    seq(zeros, _ => ZeroTile(base)) + DigitTiles(base, buffer)
  }

  /** The tiles drawn for one counter field of `print_stopwatch`. */
  function FieldTiles(base: byte, v: byte): (tiles: seq<byte>)
  {
    var s := Uitoa(v);
    assert IsDigit(s[|s| - 1]) && s[|s| - 1] as int - '0' as int == v % 10 by {
      if v >= 10 { assert s[|s| - 1] == DigitChar(v % 10); }
    }
    NumberTiles(base, NumZeros(v), s)
  }

  /** `tiles` written into row `y` from column `x` onward, one cell each. */
  function Paint(bkg: map<Cell, byte>, x: nat, y: nat, tiles: seq<byte>): (r: map<Cell, byte>)
  {
    if tiles == [] then bkg
    else Paint(bkg, x, y, tiles[..|tiles| - 1])[(x + |tiles| - 1, y) := tiles[|tiles| - 1]]
  }

  /** The tiles `printf` writes for `s` through a font whose first tile is the space. */
  function TextTiles(s: string): seq<byte> {
    seq(|s|, i requires 0 <= i < |s| => CharTile(0, s[i]))
  }

  /** `gotoxy(x, y); printf(s)` for text that fits on the row. */
  function Text(bkg: map<Cell, byte>, x: nat, y: nat, s: string): map<Cell, byte> {
    Paint(bkg, x, y, TextTiles(s))
  }

  /** The background part of `print_stopwatch`: minutes at column 6, seconds at 9, hundredths at 12, then a blank at (14, 6). */
  function PrintTime(bkg: map<Cell, byte>, base: byte, t: Time): map<Cell, byte> {
    var withMinutes := Paint(bkg, 6, 6, FieldTiles(base, t.minutes));
    var withSeconds := Paint(withMinutes, 9, 6, FieldTiles(base, t.seconds));
    var withHundredths := Paint(withSeconds, 12, 6, FieldTiles(base, t.hundredths));
    withHundredths[(14, 6) := 0]
  }

  /** Painting writes exactly the cells of its run, each with its own tile, and leaves every other cell alone. */
  lemma {:induction false} PaintCells(bkg: map<Cell, byte>, x: nat, y: nat, tiles: seq<byte>, c: Cell)
    ensures TileAt(Paint(bkg, x, y, tiles), c) ==
            if c.1 == y && x <= c.0 < x + |tiles| then tiles[c.0 - x] else TileAt(bkg, c)
  {
    if tiles != [] {
      PaintCells(bkg, x, y, tiles[..|tiles| - 1], c);
    }
  }

  /**
   * `draw_numbers_ascii` lays out `zeros` '0' tiles and then, for a buffer of
   * digits, the tile of each digit in order.
   */
  lemma NumberTilesLayout(base: byte, zeros: nat, buffer: string)
    ensures var tiles := NumberTiles(base, zeros, buffer);
            zeros <= |tiles| &&
            (forall j :: 0 <= j < zeros ==> tiles[j] == CharTile(base, '0')) &&
            (AllDigits(buffer) ==> |tiles| == zeros + |buffer|) &&
            (AllDigits(buffer) ==> forall i :: 0 <= i < |buffer| ==> tiles[zeros + i] == CharTile(base, buffer[i]))
  {
  }

  /**
   * A counter field is two tiles below 100 and three from 100 on; a single
   * digit gets the leading '0' tile, and the last tile is always the units digit.
   */
  lemma FieldLayout(base: byte, v: byte)
    ensures var tiles := FieldTiles(base, v);
            |tiles| == (if v < 100 then 2 else 3) &&
            (v < 10 ==> tiles[0] == ZeroTile(base)) &&
            tiles[|tiles| - 1] == Trunc(base + 16 + v % 10)
  {
    var s := Uitoa(v);
    NumberTilesLayout(base, NumZeros(v), s);
    assert IsDigit(s[|s| - 1]) && s[|s| - 1] as int - '0' as int == v % 10 by {
      if v >= 10 { assert s[|s| - 1] == DigitChar(v % 10); }
    }
  }

  /**
   * Whatever the counters hold, `print_stopwatch` writes only columns 6 to 14
   * of row 6, and always leaves the blank tile at (14, 6).
   */
  lemma PrintTimeFrame(bkg: map<Cell, byte>, base: byte, t: Time, c: Cell)
    ensures TileAt(PrintTime(bkg, base, t), (14, 6)) == 0
    ensures !(c.1 == 6 && 6 <= c.0 <= 14) ==> TileAt(PrintTime(bkg, base, t), c) == TileAt(bkg, c)
  {
    var withMinutes := Paint(bkg, 6, 6, FieldTiles(base, t.minutes));
    var withSeconds := Paint(withMinutes, 9, 6, FieldTiles(base, t.seconds));
    FieldLayout(base, t.minutes);
    FieldLayout(base, t.seconds);
    FieldLayout(base, t.hundredths);
    PaintCells(bkg, 6, 6, FieldTiles(base, t.minutes), c);
    PaintCells(withMinutes, 9, 6, FieldTiles(base, t.seconds), c);
    PaintCells(withSeconds, 12, 6, FieldTiles(base, t.hundredths), c);
  }

  /** A field below 100 is drawn as two tiles, its tens and its units digit: `base+16+v/10`, `base+16+v%10`. */
  lemma TwoDigitField(base: byte, v: byte)
    requires v <= 99
    ensures FieldTiles(base, v) == [Trunc(base + 16 + v / 10), Trunc(base + 16 + v % 10)]
  {
    var s := Uitoa(v);
    var d := DigitTiles(base, s);
    if v < 10 {
      assert s == [DigitChar(v)];
      assert d == [CharTile(base, s[0])];
    } else {
      assert Uitoa(v / 10) == [DigitChar(v / 10)];
      assert s == [DigitChar(v / 10), DigitChar(v % 10)];
      assert d == [CharTile(base, s[0]), CharTile(base, s[1])];
    }
  }

  /**
   * With every field below 100, `print_stopwatch` writes exactly seven cells of row 6:
   * two digit tiles per field at columns 6-7, 9-10 and 12-13, and tile 0 at column 14.
   */
  lemma PrintTwoDigitTime(bkg: map<Cell, byte>, base: byte, t: Time)
    requires t.minutes <= 99 && t.seconds <= 99 && t.hundredths <= 99
    ensures PrintTime(bkg, base, t) ==
            bkg[(6, 6) := Trunc(base + 16 + t.minutes / 10)][(7, 6) := Trunc(base + 16 + t.minutes % 10)]
               [(9, 6) := Trunc(base + 16 + t.seconds / 10)][(10, 6) := Trunc(base + 16 + t.seconds % 10)]
               [(12, 6) := Trunc(base + 16 + t.hundredths / 10)][(13, 6) := Trunc(base + 16 + t.hundredths % 10)]
               [(14, 6) := 0]
  {
    TwoDigitField(base, t.minutes);
    TwoDigitField(base, t.seconds);
    TwoDigitField(base, t.hundredths);
    forall b: map<Cell, byte>, x: nat, p: byte, q: byte
      ensures Paint(b, x, 6, [p, q]) == b[(x, 6) := p][(x + 1, 6) := q]
    {
      assert [p, q][..1] == [p];
      assert [p][..0] == [];
      assert Paint(b, x, 6, [p]) == b[(x, 6) := p];
    }
  }
}
