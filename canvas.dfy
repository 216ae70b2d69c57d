/** A fixed-size, row-major grid of colours and its serialisation to the
    plain Netpbm PPM ("P3") text format.

    The pixel buffer lives in the Canvas class, which overwrites single
    slots in place. The serialiser only reads the buffer; it is modelled by
    pure functions over the pixel sequence, which the class functions apply
    to the current contents of the buffer. */
module Canvases {
  import opened Colors
  import opened Text

  // ---- row-major addressing ----

  /** A row of a w-wide grid of h rows lies inside the w * h buffer. */
  lemma RowBounds(w: nat, h: nat, row: int)
    requires 0 <= row < h
    ensures 0 <= row * w && row * w + w <= w * h
  {
    var rest := h - row - 1;
    MulNonNegative(row, w);
    MulNonNegative(rest, w);
    calc {
      w * h;
      w * (row + 1 + rest);
      row * w + w + rest * w;
    }
  }

  lemma MulNonNegative(a: int, b: int)
    requires 0 <= a && 0 <= b
    ensures 0 <= a * b
  {
  }

  /** One more row adds one row's worth of slots. */
  lemma MulSuccessor(a: int, b: int)
    ensures (a + 1) * b == a * b + b && b * (a + 1) == b * a + b && a * b == b * a
  {
  }

  /** Slot y * w + x of an in-bounds coordinate lies inside the buffer. */
  lemma IndexInBounds(w: nat, h: nat, x: int, y: int)
    requires 0 <= x < w && 0 <= y < h
    ensures 0 <= y * w + x < w * h
  {
    RowBounds(w, h, y);
  }

  /** Every slot of an earlier row comes before every slot of a later row. */
  lemma IndexOrdered(w: nat, x1: int, y1: int, x2: int, y2: int)
    requires 0 <= x1 < w && 0 <= x2 && y1 < y2
    ensures y1 * w + x1 < y2 * w + x2
  {
    var gap := y2 - y1 - 1;
    MulNonNegative(gap, w);
    calc {
      y2 * w;
      (y1 + 1 + gap) * w;
      y1 * w + w + gap * w;
    }
  }

  /** Distinct in-bounds coordinates address distinct slots. */
  lemma IndexDistinct(w: nat, x1: int, y1: int, x2: int, y2: int)
    requires 0 <= x1 < w && 0 <= x2 < w
    requires x1 != x2 || y1 != y2
    ensures y1 * w + x1 != y2 * w + x2
  {
    if y1 < y2 {
      IndexOrdered(w, x1, y1, x2, y2);
    } else if y2 < y1 {
      IndexOrdered(w, x2, y2, x1, y1);
    }
  }

  // ---- channel conversion ----

  /** The least integer not below v (`f32::ceil`). */
  function Ceil(v: real): (n: int)
    ensures n as real - 1.0 < v <= n as real
  {
    -((-v).Floor)
  }

  /** `(c * 255.).ceil() as u8`: the channel scaled to 0..255, rounded up,
      then narrowed by Rust's float-to-integer cast, which saturates. */
  function ChannelByte(c: real): (b: nat)
    ensures b <= 255
    ensures c <= 0.0 ==> b == 0
    ensures c >= 1.0 ==> b == 255
    ensures 0.0 < c < 1.0 ==> b as real - 1.0 < c * 255.0 <= b as real
  {
    var v := Ceil(c * 255.0);
    if v < 0 then 0 else if v > 255 then 255 else v
  }

  /** The conversions exercised by the serialiser's test. */
  lemma ChannelByteExamples()
    ensures ChannelByte(1.5) == 255
    ensures ChannelByte(0.5) == 128
    ensures ChannelByte(-0.5) == 0
    ensures ChannelByte(1.0) == 255 && ChannelByte(0.0) == 0
  {
  }

  // ---- the pixel text ----

  /** `format!("{} {} {}", r, g, b)` over the three channel bytes. */
  function PixelText(p: Color): string
  {
    Render(ChannelByte(p.r)) + " " + Render(ChannelByte(p.g)) + " " + Render(ChannelByte(p.b))
  }

  /** The pixel texts of a row, in column order. */
  function PixelTexts(ps: seq<Color>): (texts: seq<string>)
    ensures |texts| == |ps|
    ensures forall i :: 0 <= i < |ps| ==> texts[i] == PixelText(ps[i])
  {
    if ps == [] then [] else [PixelText(ps[0])] + PixelTexts(ps[1..])
  }

  /** One line of the body: the pixel texts joined by single spaces. */
  function RowText(ps: seq<Color>): string
  {
    Join(PixelTexts(ps), ' ')
  }

  /** The decimal tokens of one pixel's r, g and b bytes. */
  function ChannelsOf(p: Color): (tokens: seq<string>)
    ensures |tokens| == 3
    ensures forall k :: 0 <= k < 3 ==> AllDigits(tokens[k])
  {
    [Render(ChannelByte(p.r)), Render(ChannelByte(p.g)), Render(ChannelByte(p.b))]
  }

  /** The groups f(x) of three items each, for x in xs, concatenated in
      order. */
  function Triples<T(!new), U>(f: T -> seq<U>, xs: seq<T>): (ys: seq<U>)
    requires forall x :: |f(x)| == 3
    ensures |ys| == 3 * |xs|
  {
    if xs == [] then [] else f(xs[0]) + Triples(f, xs[1..])
  }

  /** Items 3 * i, 3 * i + 1 and 3 * i + 2 are the group of xs[i]. */
  lemma {:induction false} TriplesAt<T(!new), U>(f: T -> seq<U>, xs: seq<T>, i: nat)
    requires forall x :: |f(x)| == 3
    requires i < |xs|
    ensures Triples(f, xs)[3 * i] == f(xs[i])[0]
    ensures Triples(f, xs)[3 * i + 1] == f(xs[i])[1]
    ensures Triples(f, xs)[3 * i + 2] == f(xs[i])[2]
  {
    if i > 0 {
      TriplesAt(f, xs[1..], i - 1);
      assert xs[1..][i - 1] == xs[i];
    }
  }

  /** The channel bytes of a row as the decimal tokens a reader sees, three
      per pixel in r, g, b order. */
  function ChannelTokens(ps: seq<Color>): (tokens: seq<string>)
    ensures |tokens| == 3 * |ps|
  {
    Triples(ChannelsOf, ps)
  }

  /** Tokens 3 * i, 3 * i + 1 and 3 * i + 2 of a row are the r, g and b
      tokens of pixel i. */
  lemma ChannelTokensAt(ps: seq<Color>, i: nat)
    requires i < |ps|
    ensures ChannelTokens(ps)[3 * i] == ChannelsOf(ps[i])[0]
    ensures ChannelTokens(ps)[3 * i + 1] == ChannelsOf(ps[i])[1]
    ensures ChannelTokens(ps)[3 * i + 2] == ChannelsOf(ps[i])[2]
  {
    TriplesAt(ChannelsOf, ps, i);
  }

  /** Every token is a string of decimal digits, so none holds a space or a
      line break. */
  lemma {:induction false} ChannelTokensDigits(ps: seq<Color>)
    ensures forall k :: 0 <= k < |ChannelTokens(ps)| ==> AllDigits(ChannelTokens(ps)[k])
    ensures forall k :: 0 <= k < |ChannelTokens(ps)| ==> ' ' !in ChannelTokens(ps)[k] && '\n' !in ChannelTokens(ps)[k]
  {
    if ps != [] {
      var head, tail := ChannelsOf(ps[0]), ChannelTokens(ps[1..]);
      ChannelTokensDigits(ps[1..]);
      assert ChannelTokens(ps) == head + tail;
      forall k | 0 <= k < |ChannelTokens(ps)|
        ensures AllDigits(ChannelTokens(ps)[k])
      {
        if k >= 3 {
          assert ChannelTokens(ps)[k] == tail[k - 3];
        }
      }
    }
  }

  /** A pixel's text consists of its three channel tokens. */
  lemma PixelTokens(p: Color)
    ensures Split(PixelText(p), ' ') == ChannelTokens([p])
    ensures '\n' !in PixelText(p)
  {
    var r, g, b := Render(ChannelByte(p.r)), Render(ChannelByte(p.g)), Render(ChannelByte(p.b));
    DigitsAvoid(r, ' ');
    DigitsAvoid(g, ' ');
    DigitsAvoid(b, ' ');
    DigitsAvoid(r, '\n');
    DigitsAvoid(g, '\n');
    DigitsAvoid(b, '\n');
    assert PixelText(p) == r + [' '] + g + [' '] + b;
    SplitThree(r, g, b, ' ');
    assert ChannelTokens([p]) == ChannelsOf(p) + ChannelTokens([]);
  }

  /** A non-empty row line lists the 3 * |ps| channel tokens separated by
      single spaces; the line of an empty row is empty. */
  lemma {:induction false} RowTokens(ps: seq<Color>)
    ensures |ps| >= 1 ==> Split(RowText(ps), ' ') == ChannelTokens(ps)
    ensures |ps| == 0 ==> RowText(ps) == ""
    ensures '\n' !in RowText(ps)
  {
    if |ps| >= 1 {
      PixelTokens(ps[0]);
      var rest := ps[1..];
      assert ChannelTokens(ps) == ChannelTokens([ps[0]]) + ChannelTokens(rest);
      if |ps| == 1 {
        assert RowText(ps) == PixelText(ps[0]);
        assert ChannelTokens(ps) == ChannelTokens([ps[0]]);
      } else {
        assert PixelTexts(ps)[1..] == PixelTexts(rest);
        assert RowText(ps) == PixelText(ps[0]) + [' '] + RowText(rest);
        RowTokens(rest);
        SplitAppend(PixelText(ps[0]), RowText(rest), ' ');
      }
    }
  }

  // ---- the body ----

  /** Row `row` of a w-wide buffer of h rows. */
  function Row<T>(px: seq<T>, w: nat, h: nat, row: int): (r: seq<T>)
    requires |px| == w * h && 0 <= row < h
    ensures |r| == w
    ensures forall col :: 0 <= col < w ==> row * w + col < |px| && r[col] == px[row * w + col]
  {
    RowBounds(w, h, row);
    px[row * w .. row * w + w]
  }

  /** f applied to every row of a w-wide buffer of h rows, top row first. */
  function MapRows<T, U>(f: seq<T> -> U, w: nat, h: nat, px: seq<T>): (ys: seq<U>)
    requires |px| == w * h
    ensures |ys| == h
    decreases h
  {
    if h == 0 then []
    else
      MulSuccessor(h - 1, w);
      [f(px[..w])] + MapRows(f, w, h - 1, px[w..])
  }

  /** Entry `row` of MapRows is f of row `row`. */
  lemma {:induction false} MapRowsAt<T, U>(f: seq<T> -> U, w: nat, h: nat, px: seq<T>, row: nat)
    requires |px| == w * h && row < h
    ensures MapRows(f, w, h, px)[row] == f(Row(px, w, h, row))
    decreases h
  {
    MulSuccessor(h - 1, w);
    if row == 0 {
      assert Row(px, w, h, 0) == px[..w];
    } else {
      MapRowsAt(f, w, h - 1, px[w..], row - 1);
      RowShift(px, w, h, row);
    }
  }

  /** Dropping the first row shifts the remaining rows up by one. */
  lemma RowShift<T>(px: seq<T>, w: nat, h: nat, row: nat)
    requires |px| == w * h && 1 <= row < h
    ensures |px[w..]| == w * (h - 1) && Row(px[w..], w, h - 1, row - 1) == Row(px, w, h, row)
  {
    MulSuccessor(h - 1, w);
    MulSuccessor(row - 1, w);
    RowBounds(w, h - 1, row - 1);
    var tail := px[w..];
    var lo, start := (row - 1) * w, row * w;
    assert w + lo == start;
    assert Row(tail, w, h - 1, row - 1) == tail[lo .. lo + w];
    assert tail[lo .. lo + w] == px[start .. start + w];
    assert Row(px, w, h, row) == px[start .. start + w];
  }

  /** The lines of the body, top row first. */
  function BodyLines(w: nat, h: nat, px: seq<Color>): (lines: seq<string>)
    requires |px| == w * h
    ensures |lines| == h
  {
    MapRows(RowText, w, h, px)
  }

  /** Line `row` of the body is the text of row `row` of the buffer. */
  lemma BodyLinesAt(w: nat, h: nat, px: seq<Color>, row: nat)
    requires |px| == w * h && row < h
    ensures BodyLines(w, h, px)[row] == RowText(Row(px, w, h, row))
  {
    MapRowsAt(RowText, w, h, px, row);
  }

  /** No body line contains a line break. */
  lemma BodyLinesNoBreak(w: nat, h: nat, px: seq<Color>)
    requires |px| == w * h
    ensures forall k :: 0 <= k < h ==> '\n' !in BodyLines(w, h, px)[k]
  {
    forall k | 0 <= k < h
      ensures '\n' !in BodyLines(w, h, px)[k]
    {
      BodyLinesAt(w, h, px, k);
      RowTokens(Row(px, w, h, k));
    }
  }

  /** `ppm_body`: the body lines joined by line breaks, with no line break
      after the last one. */
  function Body(w: nat, h: nat, px: seq<Color>): string
    requires |px| == w * h
  {
    Join(BodyLines(w, h, px), '\n')
  }

  /** A reader splitting the body at line breaks gets exactly the h row
      lines; an empty grid has an empty body. */
  lemma BodyStructure(w: nat, h: nat, px: seq<Color>)
    requires |px| == w * h
    ensures h >= 1 ==> Split(Body(w, h, px), '\n') == BodyLines(w, h, px)
    ensures h == 0 ==> Body(w, h, px) == ""
  {
    if h >= 1 {
      BodyLinesNoBreak(w, h, px);
      SplitJoin(BodyLines(w, h, px), '\n');
    }
  }

  /** What a reader of the body sees: line `row`, split at spaces, lists the
      r, g and b bytes of columns 0 .. w - 1 of that row, in order (Row's
      contract places column col of row `row` at slot row * w + col). */
  lemma BodyTokenAt(w: nat, h: nat, px: seq<Color>, row: nat, col: nat)
    requires |px| == w * h && row < h && col < w
    ensures |Split(Body(w, h, px), '\n')| == h
    ensures |Split(Split(Body(w, h, px), '\n')[row], ' ')| == 3 * w
    ensures Split(Split(Body(w, h, px), '\n')[row], ' ')[3 * col] == Render(ChannelByte(Row(px, w, h, row)[col].r))
    ensures Split(Split(Body(w, h, px), '\n')[row], ' ')[3 * col + 1] == Render(ChannelByte(Row(px, w, h, row)[col].g))
    ensures Split(Split(Body(w, h, px), '\n')[row], ' ')[3 * col + 2] == Render(ChannelByte(Row(px, w, h, row)[col].b))
  {
    BodyStructure(w, h, px);
    BodyLinesAt(w, h, px, row);
    var r := Row(px, w, h, row);
    RowTokens(r);
    ChannelTokensAt(r, col);
  }

  /** The pixel texts of the serialiser's test. */
  lemma PixelTextExamples()
    ensures PixelText(Black) == "0 0 0"
    ensures PixelText(Color(1.5, 0.0, 0.0)) == "255 0 0"
    ensures PixelText(Color(0.0, 0.5, 0.0)) == "0 128 0"
    ensures PixelText(Color(-0.5, 0.0, 1.0)) == "0 0 255"
  {
    ChannelByteExamples();
    assert Render(0) == "0" && Render(128) == "128" && Render(255) == "255";
  }

  /** A five-pixel row is its five pixel texts joined by spaces. */
  lemma RowTextOfFive(a: Color, b: Color, c: Color, d: Color, e: Color)
    ensures RowText([a, b, c, d, e])
            == PixelText(a) + " " + PixelText(b) + " " + PixelText(c) + " " + PixelText(d) + " " + PixelText(e)
  {
    var ta, tb, tc, td, te := PixelText(a), PixelText(b), PixelText(c), PixelText(d), PixelText(e);
    assert PixelTexts([a, b, c, d, e]) == [ta, tb, tc, td, te];
    JoinFive(ta, tb, tc, td, te, ' ');
  }

  /** The 5 x 3 pixels of the serialiser's test: pixels (0, 0), (2, 1) and
      (4, 2) hold (1.5, 0, 0), (0, 0.5, 0) and (-0.5, 0, 1), the rest black. */
  const TestPixels: seq<Color> :=
    [Color(1.5, 0.0, 0.0), Black, Black, Black, Black,
     Black, Black, Color(0.0, 0.5, 0.0), Black, Black,
     Black, Black, Black, Black, Color(-0.5, 0.0, 1.0)]

  lemma TestBodyLines()
    ensures |TestPixels| == 5 * 3
    ensures BodyLines(5, 3, TestPixels)
            == ["255 0 0 0 0 0 0 0 0 0 0 0 0 0 0",
                "0 0 0 0 0 0 0 128 0 0 0 0 0 0 0",
                "0 0 0 0 0 0 0 0 0 0 0 0 0 0 255"]
  {
    var k, p1, p2, p3 := Black, Color(1.5, 0.0, 0.0), Color(0.0, 0.5, 0.0), Color(-0.5, 0.0, 1.0);
    var px := TestPixels;
    var r0, r1, r2 := [p1, k, k, k, k], [k, k, p2, k, k], [k, k, k, k, p3];
    assert px[..5] == r0 && px[5..][..5] == r1 && px[5..][5..][..5] == r2;
    assert BodyLines(5, 1, px[5..][5..]) == [RowText(r2)];
    assert BodyLines(5, 2, px[5..]) == [RowText(r1), RowText(r2)];
    assert BodyLines(5, 3, px) == [RowText(r0), RowText(r1), RowText(r2)];
    TestRow0();
    TestRow1();
    TestRow2();
  }

  /** The three row lines of the serialiser's test. */
  lemma TestRow0()
    ensures RowText([Color(1.5, 0.0, 0.0), Black, Black, Black, Black])
            == "255 0 0 0 0 0 0 0 0 0 0 0 0 0 0"
  {
    var z := "0 0 0";
    PixelTextExamples();
    RowTextOfFive(Color(1.5, 0.0, 0.0), Black, Black, Black, Black);
    assert "255 0 0" + " " + z + " " + z + " " + z + " " + z == "255 0 0 0 0 0 0 0 0 0 0 0 0 0 0";
  }

  lemma TestRow1()
    ensures RowText([Black, Black, Color(0.0, 0.5, 0.0), Black, Black])
            == "0 0 0 0 0 0 0 128 0 0 0 0 0 0 0"
  {
    var z := "0 0 0";
    PixelTextExamples();
    RowTextOfFive(Black, Black, Color(0.0, 0.5, 0.0), Black, Black);
    assert z + " " + z + " " + "0 128 0" + " " + z + " " + z == "0 0 0 0 0 0 0 128 0 0 0 0 0 0 0";
  }

  lemma TestRow2()
    ensures RowText([Black, Black, Black, Black, Color(-0.5, 0.0, 1.0)])
            == "0 0 0 0 0 0 0 0 0 0 0 0 0 0 255"
  {
    var z := "0 0 0";
    PixelTextExamples();
    RowTextOfFive(Black, Black, Black, Black, Color(-0.5, 0.0, 1.0));
    assert z + " " + z + " " + z + " " + z + " " + "0 0 255" == "0 0 0 0 0 0 0 0 0 0 0 0 0 0 255";
  }

  /** The body the serialiser's test expects: (1.5, 0, 0) is clamped to 255,
      0.5 * 255 is rounded up to 128 and the negative channel becomes 0. */
  lemma BodyExample()
    ensures |TestPixels| == 5 * 3
    ensures Body(5, 3, TestPixels)
            == "255 0 0 0 0 0 0 0 0 0 0 0 0 0 0\n"
             + "0 0 0 0 0 0 0 128 0 0 0 0 0 0 0\n"
             + "0 0 0 0 0 0 0 0 0 0 0 0 0 0 255"
  {
    TestBodyLines();
    var lines := BodyLines(5, 3, TestPixels);
    JoinThree(lines[0], lines[1], lines[2], '\n');
    assert lines == [lines[0], lines[1], lines[2]];
  }

  // ---- the header and the document ----

  /** `ppm_header`: the format tag, the dimensions and the maximum channel
      value, on three lines without a final line break. */
  function Header(w: nat, h: nat): string
  {
    "P3\n" + Render(w) + " " + Render(h) + "\n255"
  }

  /** The header has three lines, and its second line reads back as the
      width and the height. */
  lemma HeaderLines(w: nat, h: nat)
    ensures Split(Header(w, h), '\n') == ["P3", Render(w) + " " + Render(h), "255"]
    ensures Split(Render(w) + " " + Render(h), ' ') == [Render(w), Render(h)]
    ensures Parse(Render(w)) == w && Parse(Render(h)) == h
  {
    var rw, rh := Render(w), Render(h);
    var dims := rw + " " + rh;
    DigitsAvoid(rw, '\n');
    DigitsAvoid(rh, '\n');
    DigitsAvoid(rw, ' ');
    DigitsAvoid(rh, ' ');
    SplitTwo(rw, rh, ' ');
    assert '\n' !in dims;
    SplitThree("P3", dims, "255", '\n');
    assert Header(w, h) == "P3" + ['\n'] + dims + ['\n'] + "255";
    ParseRender(w);
    ParseRender(h);
  }

  /** The header the serialiser's test expects for a 5 x 3 canvas. */
  lemma HeaderExample()
    ensures Header(5, 3) == "P3\n5 3\n255"
  {
  }

  /** The lines of `to_ppm`'s document, header + "\n" + body + "\n": the
      three header lines, the body lines (one empty line for an empty grid)
      and the empty piece after the final line break. */
  lemma DocumentLines(w: nat, h: nat, px: seq<Color>)
    requires |px| == w * h
    ensures Split(Header(w, h) + "\n" + Body(w, h, px) + "\n", '\n')
            == ["P3", Render(w) + " " + Render(h), "255"]
               + (if h == 0 then [""] else BodyLines(w, h, px)) + [""]
  {
    var hd, bd := Header(w, h), Body(w, h, px);
    assert hd + "\n" + bd + "\n" == hd + ['\n'] + (bd + ['\n'] + "");
    SplitAppend(hd, bd + ['\n'] + "", '\n');
    SplitAppend(bd, "", '\n');
    HeaderLines(w, h);
    BodyStructure(w, h, px);
  }

  // ---- the canvas ----

  class Canvas {
    const width: nat
    const height: nat
    /** The row-major pixel buffer: pixel (x, y) is slot y * width + x. */
    const pixels: array<Color>

    ghost predicate Valid()
    {
      pixels.Length == width * height
    }

    /** `Canvas::new`: a width x height canvas, every pixel black. */
    constructor (width: nat, height: nat)
      ensures Valid() && fresh(pixels)
      ensures this.width == width && this.height == height
      ensures pixels[..] == seq(width * height, _ => Black)
      ensures forall x, y :: 0 <= x < width && 0 <= y < height ==> GetPixel(x, y) == Black
    {
      this.width := width;
      this.height := height;
      pixels := new Color[width * height](_ => Black);
    }

    /** `get_pixel`: panics unless x < width and y < height; reads slot
        y * width + x. */
    function GetPixel(x: int, y: int): (c: Color)
      reads pixels
      requires Valid() && 0 <= x < width && 0 <= y < height
      ensures 0 <= y * width + x < pixels.Length && c == pixels[y * width + x]
    {
      IndexInBounds(width, height, x, y);
      pixels[y * width + x]
    }

    /** `set_pixel`: panics unless x < width and y < height; overwrites slot
        y * width + x and nothing else. */
    method SetPixel(x: int, y: int, c: Color)
      requires Valid() && 0 <= x < width && 0 <= y < height
      modifies pixels
      ensures Valid()
      ensures GetPixel(x, y) == c
      ensures forall i, j :: 0 <= i < width && 0 <= j < height && (i != x || j != y)
                ==> GetPixel(i, j) == old(GetPixel(i, j))
      ensures pixels[..] == old(pixels[..])[y * width + x := c]
    {
      IndexInBounds(width, height, x, y);
      pixels[y * width + x] := c;
      forall i, j | 0 <= i < width && 0 <= j < height && (i != x || j != y)
        ensures GetPixel(i, j) == old(GetPixel(i, j))
      {
        IndexDistinct(width, i, j, x, y);
      }
    }

    /** `ppm_header`. */
    function PpmHeader(): (s: string)
      ensures Split(s, '\n') == ["P3", Render(width) + " " + Render(height), "255"]
      ensures s == "P3\n" + Render(width) + " " + Render(height) + "\n255"
    {
      HeaderLines(width, height);
      Header(width, height)
    }

    /** `ppm_body`: one line per row, each listing the channel bytes of the
        row's pixels in column order. */
    function PpmBody(): (s: string)
      reads pixels
      requires Valid()
      ensures height == 0 ==> s == ""
      ensures height >= 1 ==> Split(s, '\n') == BodyLines(width, height, pixels[..])
    {
      BodyStructure(width, height, pixels[..]);
      Body(width, height, pixels[..])
    }

    /** `to_ppm`: header, line break, body, line break. */
    function ToPpm(): (s: string)
      reads pixels
      requires Valid()
      ensures Split(s, '\n') == ["P3", Render(width) + " " + Render(height), "255"]
                + (if height == 0 then [""] else BodyLines(width, height, pixels[..])) + [""]
    {
      DocumentLines(width, height, pixels[..]);
      PpmHeader() + "\n" + PpmBody() + "\n"
    }
  }

  /** The canvas-creation test: a fresh canvas has the requested size and
      every pixel equal to the first. */
  method CreatingCanvas() returns (width: nat, height: nat, uniform: bool)
    ensures width == 10 && height == 20 && uniform
  {
    var c := new Canvas(10, 20);
    width, height := c.width, c.height;
    uniform := forall i :: 0 <= i < c.pixels.Length ==> c.pixels[i] == c.pixels[0];
  }

  /** The pixel-writing test: a written pixel reads back. */
  method WritingPixels() returns (readBack: Color)
    ensures readBack == Color(1.0, 0.0, 0.0)
  {
    var c := new Canvas(10, 20);
    c.SetPixel(2, 3, Color(1.0, 0.0, 0.0));
    readBack := c.GetPixel(2, 3);
  }

  /** The header test for a 5 x 3 canvas. */
  method ConstructingHeader() returns (header: string)
    ensures header == "P3\n5 3\n255"
  {
    var c := new Canvas(5, 3);
    HeaderExample();
    header := c.PpmHeader();
  }

  /** The pixel-data test: the body of a 5 x 3 canvas after three writes. */
  method ConstructingPixelData() returns (body: string)
    ensures body == "255 0 0 0 0 0 0 0 0 0 0 0 0 0 0\n"
                  + "0 0 0 0 0 0 0 128 0 0 0 0 0 0 0\n"
                  + "0 0 0 0 0 0 0 0 0 0 0 0 0 0 255"
  {
    var c := new Canvas(5, 3);
    c.SetPixel(0, 0, Color(1.5, 0.0, 0.0));
    c.SetPixel(2, 1, Color(0.0, 0.5, 0.0));
    c.SetPixel(4, 2, Color(-0.5, 0.0, 1.0));
    assert c.pixels[..] == TestPixels;
    BodyExample();
    body := c.PpmBody();
  }
}
