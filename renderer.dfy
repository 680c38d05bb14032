/**
 * The indicator renderer of display.py.
 *
 * The frame buffer is an array of 200 x 200 pixels, pixel (x, y) at index
 * y * 200 + x; `fill_rect` clips to the panel. What a drawing call does to
 * the pixels is the function `Paint`; a whole picture is a list of
 * rectangles painted in order (`PaintAll`). `print` packs the pixels eight
 * to a byte, most significant bit leftmost and a set bit for white, as the
 * MONO_HLSB frame buffer holds them, and hands the bytes to the driver.
 */
module Renderer {
  import opened Wrappers
  import opened Epaper

  datatype Color = Black | White

  /** The panel's width and height, EPD_WIDTH and EPD_HEIGHT. */
  const W: int := 200
  const H: int := 200
  /** Pixels in the frame. */
  const N: int := 40000

  /** `fill_rect(x, y, w, h, c)`. */
  datatype Rect = Rect(x: int, y: int, w: int, h: int, color: Color)

  /** Pixel (x, y) sits at index y * W + x. */
  lemma PixelIndex(x: int, y: int)
    requires 0 <= x < W && 0 <= y < H
    ensures 0 <= y * W + x < N && (y * W + x) % W == x && (y * W + x) / W == y
  {
  }

  predicate Covers(r: Rect, px: int, py: int) {
    r.x <= px < r.x + r.w && r.y <= py < r.y + r.h
  }

  /** The frame after `fill_rect(r)`: the pixels of the panel that the
      rectangle covers take its colour, the others keep theirs. */
  function Paint(f: seq<Color>, r: Rect): (g: seq<Color>)
    requires |f| == N
    ensures |g| == N
  {
    seq(N, i requires 0 <= i < N => if Covers(r, i % W, i / W) then r.color else f[i])
  }

  /** The frame after painting the rectangles in order. */
  function PaintAll(f: seq<Color>, rs: seq<Rect>): (g: seq<Color>)
    requires |f| == N
    ensures |g| == N
  {
    if |rs| == 0 then f else Paint(PaintAll(f, rs[..|rs| - 1]), rs[|rs| - 1])
  }

  lemma PaintAllSnoc(f: seq<Color>, rs: seq<Rect>, r: Rect)
    requires |f| == N
    ensures PaintAll(f, rs + [r]) == Paint(PaintAll(f, rs), r)
  {
    assert (rs + [r])[..|rs|] == rs;
  }

  lemma {:induction false} PaintAllAppend(f: seq<Color>, rs: seq<Rect>, qs: seq<Rect>)
    requires |f| == N
    ensures PaintAll(f, rs + qs) == PaintAll(PaintAll(f, rs), qs)
    decreases |qs|
  {
    if |qs| == 0 {
      assert rs + qs == rs;
    } else {
      var q := qs[|qs| - 1];
      var qs' := qs[..|qs| - 1];
      assert rs + qs == (rs + qs') + [q];
      assert qs == qs' + [q];
      PaintAllSnoc(f, rs + qs', q);
      PaintAllAppend(f, rs, qs');
      PaintAllSnoc(PaintAll(f, rs), qs', q);
    }
  }

  /** A pixel no rectangle covers keeps its colour. */
  lemma {:induction false} PaintAllUncovered(f: seq<Color>, rs: seq<Rect>, i: int)
    requires |f| == N && 0 <= i < N
    requires forall k :: 0 <= k < |rs| ==> !Covers(rs[k], i % W, i / W)
    ensures PaintAll(f, rs)[i] == f[i]
    decreases |rs|
  {
    if |rs| > 0 {
      PaintAllUncovered(f, rs[..|rs| - 1], i);
    }
  }

  /** Painting only black rectangles never turns a black pixel white. */
  lemma {:induction false} BlackStaysBlack(f: seq<Color>, rs: seq<Rect>, i: int)
    requires |f| == N && 0 <= i < N && f[i] == Black
    requires forall k :: 0 <= k < |rs| ==> rs[k].color == Black
    ensures PaintAll(f, rs)[i] == Black
    decreases |rs|
  {
    if |rs| > 0 {
      BlackStaysBlack(f, rs[..|rs| - 1], i);
    }
  }

  function Blank(): (f: seq<Color>)
    ensures |f| == N
  {
    Repeat(White, N)
  }

  // ---------------------------------------------------------------------------
  // Seven-segment digits

  /** The segments lit for each digit. Segments 1, 2 and 3 are the top,
      middle and bottom bars; 4 and 5 the upper and lower left; 6 and 7 the
      upper and lower right. */
  const NUMS: seq<seq<int>> := [[1, 3, 4, 5, 6, 7], [6, 7], [1, 6, 2, 5, 3], [1, 6, 2, 7, 3],
                                [4, 6, 2, 7], [1, 4, 2, 7, 3], [1, 4, 2, 7, 5, 3],
                                [1, 6, 7], [1, 2, 3, 4, 5, 6, 7], [1, 4, 6, 2, 7, 3]]

  /** Python's `nums[number]`: an index in [-10, 10), negative ones counted
      from the end; any other index raises IndexError. */
  function Glyph(number: int): (g: Option<seq<int>>)
    ensures g.Some? <==> -10 <= number < 10
    ensures g.Some? ==> g.value == NUMS[if number < 0 then number + 10 else number]
  {
    if 0 <= number < 10 then Some(NUMS[number])
    else if -10 <= number < 0 then Some(NUMS[number + 10])
    else None
  }

  lemma NumsTable()
    ensures |NUMS| == 10
    ensures NUMS[1] == [6, 7]
    ensures multiset(NUMS[8]) == multiset{1, 2, 3, 4, 5, 6, 7}
    ensures forall d, k :: 0 <= d < 10 && 0 <= k < |NUMS[d]| ==> 1 <= NUMS[d][k] <= 7
  {
  }

  /** What `seven_seg` fills for one entry of a digit's segment list: one
      rectangle for segments 1 to 7, nothing for any other number. */
  function LedRects(x: int, y: int, size: int, thick: int, led: int): seq<Rect> {
    match led
    case 1 => [Rect(x, y, size + thick, thick, Black)]
    case 2 => [Rect(x, y + size, size + thick, thick, Black)]
    case 3 => [Rect(x, y + 2 * size, size + thick, thick, Black)]
    case 4 => [Rect(x, y, thick, size + thick, Black)]
    case 5 => [Rect(x, y + size, thick, size + thick, Black)]
    case 6 => [Rect(x + size, y, thick, size + thick, Black)]
    case 7 => [Rect(x + size, y + size, thick, size + thick, Black)]
    case _ => []
  }

  /** The rectangles for a list of segments, in order. */
  function SegmentRects(x: int, y: int, size: int, thick: int, segs: seq<int>): seq<Rect> {
    if |segs| == 0 then []
    else SegmentRects(x, y, size, thick, segs[..|segs| - 1]) + LedRects(x, y, size, thick, segs[|segs| - 1])
  }

  /** `seven_seg(x, y, size, thick, d)` for a digit 0..9. */
  function DigitRects(x: int, y: int, size: int, thick: int, d: int): seq<Rect>
    requires 0 <= d < 10
  {
    SegmentRects(x, y, size, thick, NUMS[d])
  }

  predicate InBox(r: Rect, x: int, y: int, bw: int, bh: int) {
    x <= r.x && r.x + r.w <= x + bw && y <= r.y && r.y + r.h <= y + bh
  }

  /** Every rectangle `seven_seg` fills is black and lies inside the box
      [x, x + size + thick) x [y, y + 2 * size + thick), whatever the
      segment list. */
  lemma {:induction false} SegmentsInBox(x: int, y: int, size: int, thick: int, segs: seq<int>)
    requires size >= 0 && thick >= 0
    ensures forall k :: 0 <= k < |SegmentRects(x, y, size, thick, segs)| ==>
              SegmentRects(x, y, size, thick, segs)[k].color == Black
              && InBox(SegmentRects(x, y, size, thick, segs)[k], x, y, size + thick, 2 * size + thick)
    decreases |segs|
  {
    if |segs| > 0 {
      SegmentsInBox(x, y, size, thick, segs[..|segs| - 1]);
    }
  }

  /** One rectangle per segment when every entry names a segment. */
  lemma {:induction false} SegmentCount(x: int, y: int, size: int, thick: int, segs: seq<int>)
    requires forall k :: 0 <= k < |segs| ==> 1 <= segs[k] <= 7
    ensures |SegmentRects(x, y, size, thick, segs)| == |segs|
    decreases |segs|
  {
    if |segs| > 0 {
      SegmentCount(x, y, size, thick, segs[..|segs| - 1]);
    }
  }

  /** Digit 8 lights all seven segments, digit 1 only the two on the right. */
  lemma DigitShapes(x: int, y: int, size: int, thick: int)
    ensures DigitRects(x, y, size, thick, 1)
         == [Rect(x + size, y, thick, size + thick, Black), Rect(x + size, y + size, thick, size + thick, Black)]
    ensures |DigitRects(x, y, size, thick, 8)| == 7
  {
    var one := NUMS[1];
    assert one == [6, 7];
    assert one[..1] == [6] && [6][..0] == [];
    assert SegmentRects(x, y, size, thick, [6]) == [Rect(x + size, y, thick, size + thick, Black)];
    var eight := NUMS[8];
    assert eight == [1, 2, 3, 4, 5, 6, 7];
    SegmentCount(x, y, size, thick, eight);
  }

  // ---------------------------------------------------------------------------
  // The indicator picture

  const FRAME := Rect(100, 0, W - 1 - 100, H - 1, Black)
  const INNER := Rect(104, 4, W - 1 - 100 - 8, H - 1 - 8, White)
  const NEUTRAL_MARK := Rect(104, 98, W - 1 - 100 - 8, 4, Black)
  const SIGN_BAR := Rect(0, 102, 16, 4, Black)
  const SIGN_STEM := Rect(6, 96, 4, 16, Black)
  const SETUP_MARK := Rect(5, 0, 15, 15, Black)
  const BAR_FULL_UP := Rect(30, H - 16, 68, 16, Black)
  const BAR_NEUTRAL := Rect(30, 92, 68, 16, Black)
  const BAR_FULL_DOWN := Rect(30, 0, 68, 16, Black)

  /** The needle's centre row, `floor((200 - 8 - 16) / 200 * p) + 100`,
      which is floor(22 p / 25) + 100. */
  function NeedleRow(p: int): (row: int)
    ensures -100 <= p <= 100 ==> 12 <= row <= 188
  {
    22 * p / 25 + 100
  }

  function NeedleRect(p: int): Rect {
    Rect(116, NeedleRow(p) - 8, 68, 16, Black)
  }

  lemma NeedleRows()
    ensures NeedleRow(0) == 100 && NeedleRow(100) == 188 && NeedleRow(-100) == 12
  {
  }

  lemma NeedleMonotone(p: int, q: int)
    requires p <= q
    ensures NeedleRow(p) <= NeedleRow(q)
  {
    var a, b := 22 * p, 22 * q;
    assert a <= b;
    var qa, qb := a / 25, b / 25;
    assert a == 25 * qa + a % 25 && b == 25 * qb + b % 25;
  }

  /** The plus sign is the bar and the stem, the minus sign the bar alone. */
  function SignRects(p: int): seq<Rect> {
    if p > 0 then [SIGN_BAR, SIGN_STEM] else if p < 0 then [SIGN_BAR] else []
  }

  /** The decimal digits of a = |percentage| that `indicator` draws, at
      x = 20, 45 and 70: the hundreds only if nonzero, the tens if either
      they or the hundreds are, the ones always. */
  function DigitsDrawn(a: nat): seq<(int, int)> {
    var h, t, o := a / 100, (a % 100) / 10, a % 10;
    (if h > 0 then [(20, h)] else []) + (if h > 0 || t > 0 then [(45, t)] else []) + [(70, o)]
  }

  /** The place value of the digit drawn at column x. */
  function Place(x: int): int {
    if x == 20 then 100 else if x == 45 then 10 else 1
  }

  function Spelled(ds: seq<(int, int)>): int {
    if |ds| == 0 then 0 else Place(ds[0].0) * ds[0].1 + Spelled(ds[1..])
  }

  /** For a < 1000 the digits drawn spell a in decimal, each a digit 0..9,
      with no leading zero. */
  lemma DigitsSpellValue(a: nat)
    requires a < 1000
    ensures Spelled(DigitsDrawn(a)) == a
    ensures forall k :: 0 <= k < |DigitsDrawn(a)| ==> 0 <= DigitsDrawn(a)[k].1 < 10
    ensures |DigitsDrawn(a)| == 1 || DigitsDrawn(a)[0].1 != 0
    ensures |DigitsDrawn(a)| == (if a >= 100 then 3 else if a >= 10 then 2 else 1)
  {
    var h, t, o := a / 100, (a % 100) / 10, a % 10;
    var ds := DigitsDrawn(a);
    assert a == 100 * h + 10 * t + o;
    var ones: seq<(int, int)> := [(70, o)];
    assert Spelled(ones) == o by {
      assert ones[1..] == [];
    }
    var tens: seq<(int, int)> := [(45, t)] + ones;
    assert Spelled(tens) == 10 * t + o by {
      assert tens[1..] == ones;
    }
    if h > 0 {
      var all: seq<(int, int)> := [(20, h)] + tens;
      assert ds == all;
      assert all[1..] == tens;
    } else if t > 0 {
      assert ds == tens;
    } else {
      assert ds == ones;
    }
  }

  /** The rectangles of those digits, size 16 and thickness 4, top at y = 84. */
  function DigitsRects(ds: seq<(int, int)>): seq<Rect>
    requires forall k :: 0 <= k < |ds| ==> 0 <= ds[k].1 < 10
  {
    if |ds| == 0 then []
    else DigitRects(ds[0].0, 84, 16, 4, ds[0].1) + DigitsRects(ds[1..])
  }

  /** The marker at the upper left in any setup mode, and the bar for the
      endpoint being taught in modes 2, 3 and 4. */
  function SetupRects(mode: int): seq<Rect> {
    if mode >= 1 then
      [SETUP_MARK] + (if mode == 2 then [BAR_FULL_UP] else if mode == 3 then [BAR_NEUTRAL]
                      else if mode == 4 then [BAR_FULL_DOWN] else [])
    else []
  }

  /** The digits `indicator` draws for a magnitude below 1000. */
  function DigitsPlan(a: int): seq<Rect>
    requires 0 <= a < 1000
  {
    DigitsSpellValue(a);
    DigitsRects(DigitsDrawn(a))
  }

  /** What `indicator(percentage, setupmode)` paints, and whether it raises:
      a hundreds digit of 10 or more indexes past the end of `nums`. */
  datatype Drawing = Drawing(rects: seq<Rect>, raised: bool)

  /** The frame, its white inside and the neutral mark, drawn in every mode. */
  const BASE: seq<Rect> := [FRAME, INNER, NEUTRAL_MARK]

  function IndicatorPlan(p: int, mode: int): Drawing {
    if mode == 0 || mode == 1 then
      var a := if p < 0 then -p else p;
      var needled := BASE + [NeedleRect(p)] + SignRects(p);
      if a / 100 >= 10 then Drawing(needled, true)
      else
        Drawing(needled + DigitsPlan(a) + SetupRects(mode), false)
    else Drawing(BASE + SetupRects(mode), false)
  }

  /** The picture `indicator(p, mode)` leaves in the frame buffer. */
  function Render(p: int, mode: int): (f: seq<Color>)
    ensures |f| == N
  {
    PaintAll(Blank(), IndicatorPlan(p, mode).rects)
  }

  /** The rectangles of those digits, expanded. */
  lemma DigitsRectsOfDrawn(a: nat)
    requires a < 1000
    ensures forall k :: 0 <= k < |DigitsDrawn(a)| ==> 0 <= DigitsDrawn(a)[k].1 < 10
    ensures DigitsRects(DigitsDrawn(a))
         == (if a / 100 > 0 then DigitRects(20, 84, 16, 4, a / 100) else [])
          + (if a / 100 > 0 || (a % 100) / 10 > 0 then DigitRects(45, 84, 16, 4, (a % 100) / 10) else [])
          + DigitRects(70, 84, 16, 4, a % 10)
  {
    DigitsSpellValue(a);
    var h, t, o := a / 100, (a % 100) / 10, a % 10;
    DigitsDrawnShape(a);
    DigitsRectsOf(h, t, o);
  }

  lemma DigitsDrawnShape(a: nat)
    ensures DigitsDrawn(a)
         == (if a / 100 > 0 then [(20, a / 100)] else [])
          + (if a / 100 > 0 || (a % 100) / 10 > 0 then [(45, (a % 100) / 10)] else [])
          + [(70, a % 10)]
  {
  }

  lemma DigitsRectsOf(h: int, t: int, o: int)
    requires 0 <= h < 10 && 0 <= t < 10 && 0 <= o < 10
    ensures DigitsRects((if h > 0 then [(20, h)] else []) + (if h > 0 || t > 0 then [(45, t)] else []) + [(70, o)])
         == (if h > 0 then DigitRects(20, 84, 16, 4, h) else [])
          + (if h > 0 || t > 0 then DigitRects(45, 84, 16, 4, t) else [])
          + DigitRects(70, 84, 16, 4, o)
  {
    if h > 0 {
      assert [(20, h)] + [(45, t)] + [(70, o)] == [(20, h), (45, t), (70, o)];
      DigitsRectsThree(h, t, o);
    } else if t > 0 {
      assert [] + [(45, t)] + [(70, o)] == [(45, t), (70, o)];
      DigitsRectsTwo(t, o);
    } else {
      assert [] + [] + [(70, o)] == [(70, o)];
      DigitsRectsOne(o);
    }
  }

  lemma DigitsRectsOne(o: int)
    requires 0 <= o < 10
    ensures DigitsRects([(70, o)]) == DigitRects(70, 84, 16, 4, o)
  {
    assert [(70, o)] == [(70, o)] + [];
    DigitsRectsCons((70, o), []);
  }

  lemma DigitsRectsTwo(t: int, o: int)
    requires 0 <= t < 10 && 0 <= o < 10
    ensures DigitsRects([(45, t), (70, o)]) == DigitRects(45, 84, 16, 4, t) + DigitRects(70, 84, 16, 4, o)
  {
    assert [(45, t), (70, o)] == [(45, t)] + [(70, o)];
    DigitsRectsCons((45, t), [(70, o)]);
    DigitsRectsOne(o);
  }

  lemma DigitsRectsThree(h: int, t: int, o: int)
    requires 0 <= h < 10 && 0 <= t < 10 && 0 <= o < 10
    ensures DigitsRects([(20, h), (45, t), (70, o)])
         == DigitRects(20, 84, 16, 4, h) + DigitRects(45, 84, 16, 4, t) + DigitRects(70, 84, 16, 4, o)
  {
    assert [(20, h), (45, t), (70, o)] == [(20, h)] + [(45, t), (70, o)];
    DigitsRectsCons((20, h), [(45, t), (70, o)]);
    DigitsRectsTwo(t, o);
  }

  /** One digit more in front adds its rectangles in front. */
  lemma DigitsRectsCons(d: (int, int), rest: seq<(int, int)>)
    requires 0 <= d.1 < 10 && forall k :: 0 <= k < |rest| ==> 0 <= rest[k].1 < 10
    ensures DigitsRects([d] + rest) == DigitRects(d.0, 84, 16, 4, d.1) + DigitsRects(rest)
  {
    assert ([d] + rest)[1..] == rest;
  }

  /** The digits lie in the band x in [20, 90), y in [84, 120), left of the
      frame and right of the sign, and are black. */
  lemma {:induction false} DigitsRectsInBand(ds: seq<(int, int)>)
    requires forall k :: 0 <= k < |ds| ==> 0 <= ds[k].1 < 10 && 20 <= ds[k].0 <= 70
    ensures forall k :: 0 <= k < |DigitsRects(ds)| ==>
              DigitsRects(ds)[k].color == Black && InBox(DigitsRects(ds)[k], 20, 84, 70, 36)
  {
    if |ds| > 0 {
      SegmentsInBox(ds[0].0, 84, 16, 4, NUMS[ds[0].1]);
      DigitsRectsInBand(ds[1..]);
    }
  }

  lemma DigitsDrawnColumns(a: nat)
    requires a < 1000
    ensures forall k :: 0 <= k < |DigitsDrawn(a)| ==> 0 <= DigitsDrawn(a)[k].1 < 10 && 20 <= DigitsDrawn(a)[k].0 <= 70
  {
    DigitsSpellValue(a);
  }

  /** The rectangles painted after the needle and the sign. */
  function Tail(p: int, mode: int): seq<Rect>
    requires mode == 0 || mode == 1
  {
    var a := if p < 0 then -p else p;
    if a / 100 >= 10 then []
    else
      DigitsPlan(a) + SetupRects(mode)
  }

  /** In the modes with a needle the picture is painted in three layers:
      frame and needle, sign, then digits and marker. */
  lemma Layers(p: int, mode: int)
    requires mode == 0 || mode == 1
    ensures Render(p, mode)
         == PaintAll(PaintAll(PaintAll(Blank(), BASE + [NeedleRect(p)]), SignRects(p)), Tail(p, mode))
  {
    var head := BASE + [NeedleRect(p)];
    assert IndicatorPlan(p, mode).rects == (head + SignRects(p)) + Tail(p, mode);
    PaintAllAppend(Blank(), head + SignRects(p), Tail(p, mode));
    PaintAllAppend(Blank(), head, SignRects(p));
  }

  /** What follows the needle and the sign is black and stays right of
      x = 20 or, for the marker in mode 1, is the marker. */
  lemma TailShape(p: int, mode: int)
    requires mode == 0 || mode == 1
    ensures forall k :: 0 <= k < |Tail(p, mode)| ==>
              Tail(p, mode)[k].color == Black
              && (InBox(Tail(p, mode)[k], 20, 84, 70, 36) || (mode == 1 && Tail(p, mode)[k] == SETUP_MARK))
  {
    var a := if p < 0 then -p else p;
    if a / 100 < 10 {
      DigitsDrawnColumns(a);
      DigitsRectsInBand(DigitsDrawn(a));
    }
  }

  /** The frame and the needle leave the left half alone. */
  lemma HeadLeavesLeftHalf(f: seq<Color>, p: int, i: int)
    requires |f| == N && 0 <= i < N && i % W < 100
    ensures PaintAll(f, BASE + [NeedleRect(p)])[i] == f[i]
  {
    PaintAllUncovered(f, BASE + [NeedleRect(p)], i);
  }

  /** The sign touches only its bar and its stem. */
  lemma SignLeaves(f: seq<Color>, p: int, i: int)
    requires |f| == N && 0 <= i < N
    requires !Covers(SIGN_BAR, i % W, i / W) && !Covers(SIGN_STEM, i % W, i / W)
    ensures PaintAll(f, SignRects(p))[i] == f[i]
  {
    PaintAllUncovered(f, SignRects(p), i);
  }

  /** Digits and marker leave the columns left of x = 20 alone, but for the
      marker in mode 1. */
  lemma TailLeaves(f: seq<Color>, p: int, mode: int, i: int)
    requires mode == 0 || mode == 1
    requires |f| == N && 0 <= i < N && i % W < 20
    requires mode == 0 || !Covers(SETUP_MARK, i % W, i / W)
    ensures PaintAll(f, Tail(p, mode))[i] == f[i]
  {
    TailShape(p, mode);
    PaintAllUncovered(f, Tail(p, mode), i);
  }

  /** Everything painted after the needle is black. */
  lemma AfterNeedleBlack(p: int, mode: int)
    requires mode == 0 || mode == 1
    ensures forall k :: 0 <= k < |SignRects(p)| ==> SignRects(p)[k].color == Black
    ensures forall k :: 0 <= k < |Tail(p, mode)| ==> Tail(p, mode)[k].color == Black
  {
    TailShape(p, mode);
  }

  lemma NeedlePainted(p: int, i: int)
    requires 0 <= i < N && i % W == 150 && i / W == NeedleRow(p)
    ensures PaintAll(Blank(), BASE + [NeedleRect(p)])[i] == Black
  {
    PaintAllSnoc(Blank(), BASE, NeedleRect(p));
  }

  /** Whether `indicator` raises: only in the modes that draw digits, and
      only for a percentage of magnitude 1000 or more. */
  lemma RaisesIff(p: int, mode: int)
    ensures IndicatorPlan(p, mode).raised <==> (mode == 0 || mode == 1) && (p >= 1000 || p <= -1000)
  {
  }

  /** In the endpoint-teaching modes the picture does not depend on the
      percentage, and holds neither needle nor digits. */
  lemma TeachingIgnoresPercentage(p: int, q: int, mode: int)
    requires mode != 0 && mode != 1
    ensures IndicatorPlan(p, mode) == IndicatorPlan(q, mode)
    ensures forall k :: 0 <= k < |IndicatorPlan(p, mode).rects| ==> IndicatorPlan(p, mode).rects[k].x != 116
  {
  }

  /** The needle shows: in the normal and the first setup mode, for every
      percentage in [-100, 100], the pixel at column 150 of its centre row
      is black. */
  lemma NeedleVisible(p: int, mode: int)
    requires mode == 0 || mode == 1
    requires -100 <= p <= 100
    ensures Render(p, mode)[NeedleRow(p) * W + 150] == Black
  {
    PixelIndex(150, NeedleRow(p));
    NeedlePixelBlack(p, mode, NeedleRow(p) * W + 150);
  }

  lemma NeedlePixelBlack(p: int, mode: int, i: int)
    requires mode == 0 || mode == 1
    requires 0 <= i < N && i % W == 150 && i / W == NeedleRow(p)
    ensures Render(p, mode)[i] == Black
  {
    Layers(p, mode);
    NeedlePainted(p, i);
    AfterNeedleBlack(p, mode);
    StaysBlackThrough(PaintAll(Blank(), BASE + [NeedleRect(p)]), SignRects(p), Tail(p, mode), i);
  }

  /** A black pixel stays black through two runs of black rectangles. */
  lemma StaysBlackThrough(f: seq<Color>, rs: seq<Rect>, qs: seq<Rect>, i: int)
    requires |f| == N && 0 <= i < N && f[i] == Black
    requires forall k :: 0 <= k < |rs| ==> rs[k].color == Black
    requires forall k :: 0 <= k < |qs| ==> qs[k].color == Black
    ensures PaintAll(PaintAll(f, rs), qs)[i] == Black
  {
    BlackStaysBlack(f, rs, i);
    BlackStaysBlack(PaintAll(f, rs), qs, i);
  }

  /** The sign: the pixel at (1, 103) on the bar is black exactly when the
      percentage is nonzero, the one at (7, 97) on the stem exactly when it
      is positive. */
  lemma SignShown(p: int, mode: int)
    requires mode == 0 || mode == 1
    ensures Render(p, mode)[103 * W + 1] == Black <==> p != 0
    ensures Render(p, mode)[97 * W + 7] == Black <==> p > 0
  {
    PixelIndex(1, 103);
    PixelIndex(7, 97);
    var before := PaintAll(Blank(), BASE + [NeedleRect(p)]);
    var signed := PaintAll(before, SignRects(p));
    assert before[103 * W + 1] == White && before[97 * W + 7] == White by {
      HeadLeavesLeftHalf(Blank(), p, 103 * W + 1);
      HeadLeavesLeftHalf(Blank(), p, 97 * W + 7);
    }
    assert (signed[103 * W + 1] == Black <==> p != 0) && (signed[97 * W + 7] == Black <==> p > 0) by {
      SignPixels(before, p);
    }
    assert Render(p, mode)[103 * W + 1] == signed[103 * W + 1] by {
      SignLayerShows(p, mode, 103 * W + 1);
    }
    assert Render(p, mode)[97 * W + 7] == signed[97 * W + 7] by {
      SignLayerShows(p, mode, 97 * W + 7);
    }
  }

  /** Left of the digits and below the marker the picture is what the sign
      made of it. */
  lemma SignLayerShows(p: int, mode: int, i: int)
    requires mode == 0 || mode == 1
    requires 0 <= i < N && i % W < 20 && i / W >= 15
    ensures Render(p, mode)[i] == PaintAll(PaintAll(Blank(), BASE + [NeedleRect(p)]), SignRects(p))[i]
  {
    Layers(p, mode);
    TailLeaves(PaintAll(PaintAll(Blank(), BASE + [NeedleRect(p)]), SignRects(p)), p, mode, i);
  }

  lemma SignPixels(before: seq<Color>, p: int)
    requires |before| == N && before[103 * W + 1] == White && before[97 * W + 7] == White
    ensures PaintAll(before, SignRects(p))[103 * W + 1] == Black <==> p != 0
    ensures PaintAll(before, SignRects(p))[97 * W + 7] == Black <==> p > 0
  {
    if p > 0 {
      assert SignRects(p) == [SIGN_BAR] + [SIGN_STEM];
      PaintAllSnoc(before, [SIGN_BAR], SIGN_STEM);
      assert [SIGN_BAR] == [] + [SIGN_BAR];
      PaintAllSnoc(before, [], SIGN_BAR);
    } else if p < 0 {
      assert SignRects(p) == [] + [SIGN_BAR];
      PaintAllSnoc(before, [], SIGN_BAR);
    }
  }

  /** The setup marker: unless `indicator` raises, the pixel at (10, 10) is
      black exactly when a setup mode is shown. */
  lemma SetupMarkerShown(p: int, mode: int)
    requires !IndicatorPlan(p, mode).raised
    ensures Render(p, mode)[10 * W + 10] == Black <==> mode >= 1
  {
    if mode == 0 {
      MarkerAbsentInNormalMode(p);
    } else if mode == 1 {
      MarkerInFirstSetupMode(p);
    } else {
      MarkerInOtherModes(p, mode);
    }
  }

  lemma MarkerAbsentInNormalMode(p: int)
    ensures Render(p, 0)[10 * W + 10] == White
  {
    var i := 10 * W + 10;
    var before := PaintAll(Blank(), BASE + [NeedleRect(p)]);
    PixelIndex(10, 10);
    Layers(p, 0);
    HeadLeavesLeftHalf(Blank(), p, i);
    SignLeaves(before, p, i);
    TailLeaves(PaintAll(before, SignRects(p)), p, 0, i);
  }

  lemma MarkerInFirstSetupMode(p: int)
    requires !IndicatorPlan(p, 1).raised
    ensures Render(p, 1)[10 * W + 10] == Black
  {
    Layers(p, 1);
    MarkerEndsTail(PaintAll(PaintAll(Blank(), BASE + [NeedleRect(p)]), SignRects(p)), p);
  }

  lemma MarkerEndsTail(f: seq<Color>, p: int)
    requires |f| == N && !IndicatorPlan(p, 1).raised
    ensures PaintAll(f, Tail(p, 1))[10 * W + 10] == Black
  {
    var a := if p < 0 then -p else p;
    var digits := DigitsPlan(a);
    assert Tail(p, 1) == digits + [SETUP_MARK];
    PaintLastCovers(f, digits, SETUP_MARK, 10 * W + 10);
  }

  /** A pixel the last rectangle covers takes its colour. */
  lemma PaintLastCovers(f: seq<Color>, rs: seq<Rect>, r: Rect, i: int)
    requires |f| == N && 0 <= i < N && Covers(r, i % W, i / W)
    ensures PaintAll(f, rs + [r])[i] == r.color
  {
    PaintAllSnoc(f, rs, r);
  }

  lemma MarkerInOtherModes(p: int, mode: int)
    requires mode != 0 && mode != 1
    ensures Render(p, mode)[10 * W + 10] == Black <==> mode >= 1
  {
    var i := 10 * W + 10;
    if mode >= 2 {
      var after := SetupRects(mode)[1..];
      assert IndicatorPlan(p, mode).rects == (BASE + [SETUP_MARK]) + after;
      PaintAllAppend(Blank(), BASE + [SETUP_MARK], after);
      PaintAllSnoc(Blank(), BASE, SETUP_MARK);
      BlackStaysBlack(PaintAll(Blank(), BASE + [SETUP_MARK]), after, i);
    } else {
      assert IndicatorPlan(p, mode).rects == BASE;
      PaintAllUncovered(Blank(), BASE, i);
    }
  }

  /** The endpoint bars: at column 94, which nothing but a bar reaches, the
      pixel on the full-up bar (row 195) is black exactly in mode 2, the one
      on the neutral bar (row 100) exactly in mode 3, the one on the
      full-down bar (row 5) exactly in mode 4. */
  lemma SetupBarsShown(p: int, mode: int)
    ensures Render(p, mode)[195 * W + 94] == Black <==> mode == 2
    ensures Render(p, mode)[100 * W + 94] == Black <==> mode == 3
    ensures Render(p, mode)[5 * W + 94] == Black <==> mode == 4
  {
    PixelIndex(94, 195);
    PixelIndex(94, 100);
    PixelIndex(94, 5);
    if mode == 2 { BarBlack(p, mode, 195 * W + 94); } else { ColumnLeftWhite(p, mode, 195 * W + 94); }
    if mode == 3 { BarBlack(p, mode, 100 * W + 94); } else { ColumnLeftWhite(p, mode, 100 * W + 94); }
    if mode == 4 { BarBlack(p, mode, 5 * W + 94); } else { ColumnLeftWhite(p, mode, 5 * W + 94); }
  }

  /** The bar of a teaching mode is painted last, so it shows. */
  lemma BarBlack(p: int, mode: int, i: int)
    requires 2 <= mode <= 4 && 0 <= i < N && Covers(SetupRects(mode)[1], i % W, i / W)
    ensures Render(p, mode)[i] == Black
  {
    var bar := SetupRects(mode)[1];
    assert IndicatorPlan(p, mode).rects == (BASE + [SETUP_MARK]) + [bar];
    PaintLastCovers(Blank(), BASE + [SETUP_MARK], bar, i);
  }

  /** Column 94 lies right of the digits, the sign and the marker and left of
      the frame and the needle: a pixel there stays white unless a setup
      rectangle covers it. */
  lemma ColumnLeftWhite(p: int, mode: int, i: int)
    requires 0 <= i < N && i % W == 94
    requires forall k :: 0 <= k < |SetupRects(mode)| ==> !Covers(SetupRects(mode)[k], 94, i / W)
    ensures Render(p, mode)[i] == White
  {
    if mode == 0 || mode == 1 {
      NeedledColumnWhite(p, mode, i);
    } else {
      PaintAllUncovered(Blank(), BASE + SetupRects(mode), i);
    }
  }

  lemma NeedledColumnWhite(p: int, mode: int, i: int)
    requires mode == 0 || mode == 1
    requires 0 <= i < N && i % W == 94
    ensures Render(p, mode)[i] == White
  {
    var before := PaintAll(Blank(), BASE + [NeedleRect(p)]);
    var signed := PaintAll(before, SignRects(p));
    assert before[i] == White by {
      PaintAllUncovered(Blank(), BASE + [NeedleRect(p)], i);
    }
    assert signed[i] == White by {
      SignLeaves(before, p, i);
    }
    assert PaintAll(signed, Tail(p, mode))[i] == White by {
      TailShape(p, mode);
      PaintAllUncovered(signed, Tail(p, mode), i);
    }
    Layers(p, mode);
  }

  // ---------------------------------------------------------------------------
  // The byte buffer: MONO_HLSB, eight pixels to a byte, leftmost pixel in the
  // most significant bit, a set bit for white

  /** A white pixel is a set bit. */
  function Bit(c: Color): int {
    if c == White then 1 else 0
  }

  /** The number a sequence of bits spells, most significant first. */
  function Value(bits: seq<int>): int {
    if |bits| == 0 then 0 else 2 * Value(bits[..|bits| - 1]) + bits[|bits| - 1]
  }

  /** The low n bits of v, most significant first. */
  function Bits(v: int, n: nat): (bits: seq<int>)
    ensures |bits| == n
    decreases n
  {
    if n == 0 then [] else Bits(v / 2, n - 1) + [v % 2]
  }

  function Pow2(n: nat): int {
    if n == 0 then 1 else 2 * Pow2(n - 1)
  }

  predicate IsBits(bits: seq<int>) {
    forall k :: 0 <= k < |bits| ==> 0 <= bits[k] <= 1
  }

  lemma {:induction false} ValueBound(bits: seq<int>)
    requires IsBits(bits)
    ensures 0 <= Value(bits) < Pow2(|bits|)
    decreases |bits|
  {
    if |bits| > 0 {
      ValueBound(bits[..|bits| - 1]);
    }
  }

  /** Reading back the bits of a value gives the bits it was made of. */
  lemma {:induction false} BitsOfValue(bits: seq<int>)
    requires IsBits(bits)
    ensures Bits(Value(bits), |bits|) == bits
    decreases |bits|
  {
    if |bits| > 0 {
      var init, last := bits[..|bits| - 1], bits[|bits| - 1];
      var v := Value(bits);
      assert v / 2 == Value(init) && v % 2 == last by {
        assert v == 2 * Value(init) + last && 0 <= last <= 1;
      }
      assert Bits(v, |bits|) == Bits(Value(init), |init|) + [last];
      BitsOfValue(init);
      assert init + [last] == bits;
    }
  }

  /** The bits of a run of pixels, left to right. */
  function PixelBits(px: seq<Color>): (bits: seq<int>)
    ensures |bits| == |px| && IsBits(bits)
  {
    seq(|px|, k requires 0 <= k < |px| => Bit(px[k]))
  }

  /** Eight pixels as one byte, leftmost pixel in the most significant bit. */
  function PackByte(px: seq<Color>): byte
    requires |px| == 8
  {
    ValueBound(PixelBits(px));
    Value(PixelBits(px)) as byte
  }

  /** The bytearray behind the frame buffer: row by row, 25 bytes a row. */
  function Pack(f: seq<Color>): (bytes: seq<byte>)
    requires |f| == N
    ensures |bytes| == N / 8
  {
    seq(N / 8, k requires 0 <= k < N / 8 => PackByte(f[8 * k .. 8 * k + 8]))
  }

  /** Pixel j of a byte, as the panel reads it. */
  function PixelOf(b: byte, j: int): Color
    requires 0 <= j < 8
  {
    if Bits(b as int, 8)[j] == 1 then White else Black
  }

  /** The picture a buffer of bytes shows. */
  function Unpack(bytes: seq<byte>): (f: seq<Color>)
    requires |bytes| == N / 8
    ensures |f| == N
  {
    seq(N, i requires 0 <= i < N => PixelOf(bytes[i / 8], i % 8))
  }

  lemma PackByteBits(px: seq<Color>, j: int)
    requires |px| == 8 && 0 <= j < 8
    ensures PixelOf(PackByte(px), j) == px[j]
  {
    BitsOfValue(PixelBits(px));
  }

  /** The bytes hold the picture exactly: reading them back gives every pixel. */
  lemma PackRoundTrip(f: seq<Color>)
    requires |f| == N
    ensures Unpack(Pack(f)) == f
  {
    forall i | 0 <= i < N ensures Unpack(Pack(f))[i] == f[i] {
      PackPixel(f, i);
    }
  }

  lemma PackPixel(f: seq<Color>, i: int)
    requires |f| == N && 0 <= i < N
    ensures Unpack(Pack(f))[i] == f[i]
  {
    var k, j := i / 8, i % 8;
    assert 8 * k + j == i && 0 <= k < N / 8;
    var px := f[8 * k .. 8 * k + 8];
    assert px[j] == f[i];
    assert Pack(f)[k] == PackByte(px);
    PackByteBits(px, j);
  }

  lemma WhiteByte(px: seq<Color>)
    requires |px| == 8 && forall k :: 0 <= k < 8 ==> px[k] == White
    ensures PackByte(px) == 0xFF
  {
    assert PixelBits(px) == Repeat(1, 8);
    ValueOfOnes(8);
  }

  lemma {:induction false} ValueOfOnes(n: nat)
    ensures Value(Repeat(1, n)) == Pow2(n) - 1
  {
    if n > 0 {
      assert Repeat(1, n)[..n - 1] == Repeat(1, n - 1);
      ValueOfOnes(n - 1);
    }
  }

  /** A white frame is all 0xFF bytes, the value the panel is cleared with. */
  lemma PackBlank()
    ensures Pack(Blank()) == Repeat(0xFF, N / 8)
  {
    forall k | 0 <= k < N / 8 ensures Pack(Blank())[k] == 0xFF {
      WhiteByte(Blank()[8 * k .. 8 * k + 8]);
    }
  }

  /** `print` sends the write-RAM command, the packed frame and the
      partial-refresh trigger, and the panel RAM then holds the picture. */
  lemma PrintSendsFrame(f: seq<Color>)
    requires |f| == N
    ensures Commands(DisplayPartTrace(Pack(f))) == [WRITE_RAM, DISPLAY_UPDATE_CONTROL_2, MASTER_ACTIVATION]
    ensures Payload(DisplayPartTrace(Pack(f))) == Pack(f) + [0xFF]
    ensures Unpack(Payload(DisplayPartTrace(Pack(f)))[..N / 8]) == f
  {
    var bytes := Pack(f);
    DisplayPartSends(bytes);
    var tail: seq<Event> := [Cmd(0x22), Dat(0xFF), Cmd(0x20)];
    ViewsAppend([Cmd(0x24)], Dats(bytes));
    ViewsAppend([Cmd(0x24)] + Dats(bytes), tail);
    ViewsOfDats(bytes);
    assert Commands(tail) == [0x22, 0x20] && Payload(tail) == [0xFF] by {
      assert tail[1..][1..][1..] == [];
    }
    assert (bytes + [0xFF])[..N / 8] == bytes;
    PackRoundTrip(f);
  }

  // ---------------------------------------------------------------------------
  // The Display class

  /** `Display`: the panel driver and the frame buffer drawn into. The frame
      buffer is kept as its pixels; `Pack` gives the bytearray. */
  class Display {
    const e: EPD
    var fb: seq<Color>

    /** Sets up the panel: a full-refresh init and clear, a partial-refresh
        init and clear, then an all-white frame buffer. */
    constructor (busyLine: seq<bool>)
      ensures fresh(e) && e.busyLine == busyLine
      ensures e.trace == InitTrace(false) + ClearTrace(0xFF) + InitTrace(true) + ClearTrace(0xFF)
      ensures fb == Blank()
    {
      var epd := new EPD(busyLine);
      epd.Init(false);
      EmptyAppend(InitTrace(false));
      epd.Clear(0xFF);
      epd.Init(true);
      epd.Clear(0xFF);
      e := epd;
      fb := Blank();
    }

    /** `fb.fill(c)`. */
    method Fill(c: Color)
      modifies this
      ensures fb == Repeat(c, N)
    {
      fb := Repeat(c, N);
    }

    /** `fb.fill_rect(x, y, w, h, c)`. */
    method FillRect(x: int, y: int, w: int, h: int, c: Color)
      requires |fb| == N
      modifies this
      ensures fb == Paint(old(fb), Rect(x, y, w, h, c))
    {
      fb := Paint(fb, Rect(x, y, w, h, c));
    }

    /** `print`: sends the frame buffer with a partial refresh. */
    method Print()
      requires |fb| == N
      modifies e
      ensures e.trace == old(e.trace) + DisplayPartTrace(Pack(fb)) && e.polls == old(e.polls)
    {
      e.DisplayPart(Pack(fb));
    }

    /** `busy`: one reading of the panel's busy line. */
    method Busy() returns (busy: bool)
      modifies e
      ensures busy == BusyReading(e.busyLine, old(e.polls))
      ensures e.polls == old(e.polls) + 1 && e.trace == old(e.trace)
    {
      busy := e.Busy();
    }

    /** `seven_seg(x, y, size, thick, number)`: fills the segments of
        `nums[number]` in the table's order; an index outside the table
        raises IndexError before anything is drawn. */
    method SevenSeg(x: int, y: int, size: int, thick: int, number: int) returns (raised: bool)
      requires |fb| == N
      modifies this
      ensures raised <==> Glyph(number).None?
      ensures raised ==> fb == old(fb)
      ensures !raised ==> fb == PaintAll(old(fb), SegmentRects(x, y, size, thick, Glyph(number).value))
    {
      var glyph := Glyph(number);
      if glyph.None? {
        return true;
      }
      raised := false;
      var segs := glyph.value;
      ghost var start := fb;
      var i := 0;
      while i < |segs|
        invariant 0 <= i <= |segs| && |fb| == N
        invariant fb == PaintAll(start, SegmentRects(x, y, size, thick, segs[..i]))
      {
        ghost var before := fb;
        FillSegment(x, y, size, thick, segs[i]);
        SevenSegStep(start, before, fb, x, y, size, thick, segs, i);
        i := i + 1;
      }
      assert segs[..|segs|] == segs;
    }

    /** The body of `seven_seg`'s loop: the `fill_rect` for one entry. */
    method FillSegment(x: int, y: int, size: int, thick: int, led: int)
      requires |fb| == N
      modifies this
      ensures fb == PaintAll(old(fb), LedRects(x, y, size, thick, led))
    {
      ghost var before := fb;
      if led == 1 {
        FillRect(x, y, size + thick, thick, Black);
        PaintOne(before, Rect(x, y, size + thick, thick, Black));
      } else if led == 2 {
        FillRect(x, y + size, size + thick, thick, Black);
        PaintOne(before, Rect(x, y + size, size + thick, thick, Black));
      } else if led == 3 {
        FillRect(x, y + 2 * size, size + thick, thick, Black);
        PaintOne(before, Rect(x, y + 2 * size, size + thick, thick, Black));
      } else if led == 4 {
        FillRect(x, y, thick, size + thick, Black);
        PaintOne(before, Rect(x, y, thick, size + thick, Black));
      } else if led == 5 {
        FillRect(x, y + size, thick, size + thick, Black);
        PaintOne(before, Rect(x, y + size, thick, size + thick, Black));
      } else if led == 6 {
        FillRect(x + size, y, thick, size + thick, Black);
        PaintOne(before, Rect(x + size, y, thick, size + thick, Black));
      } else if led == 7 {
        FillRect(x + size, y + size, thick, size + thick, Black);
        PaintOne(before, Rect(x + size, y + size, thick, size + thick, Black));
      }
    }

    /** `indicator(percentage, setupmode)`: draws the picture `IndicatorPlan`
        describes, or stops with the IndexError it predicts. */
    method Indicator(percentage: int, setupmode: int) returns (raised: bool)
      requires |fb| == N
      modifies this
      ensures raised == IndicatorPlan(percentage, setupmode).raised
      ensures fb == Render(percentage, setupmode)
    {
      Fill(White);
      DrawFrame();
      raised := false;
      if setupmode == 0 || setupmode == 1 {
        var magnitude := DrawNeedle(percentage);
        raised := DrawDigits(magnitude);
        if raised {
          RenderRaised(percentage, setupmode);
          return;
        }
        DrawSetup(setupmode);
        RenderNeedleModes(percentage, setupmode);
      } else {
        DrawSetup(setupmode);
        RenderOtherModes(percentage, setupmode);
      }
    }

    /** The outer frame, its white inside and the neutral mark. */
    method DrawFrame()
      requires |fb| == N
      modifies this
      ensures fb == PaintAll(old(fb), BASE)
    {
      var s := 4;
      ghost var start := fb;
      FillRect(100, 0, W - 1 - 100, H - 1, Black);
      PaintOne(start, FRAME);
      FillRect(100 + s, s, W - 1 - 100 - 2 * s, H - 1 - 2 * s, White);
      PaintAllSnoc(start, [FRAME], INNER);
      FillRect(100 + s, 100 - s / 2, W - 1 - 100 - 2 * s, s, Black);
      PaintAllSnoc(start, [FRAME, INNER], NEUTRAL_MARK);
      assert [FRAME] + [INNER] == [FRAME, INNER] && [FRAME, INNER] + [NEUTRAL_MARK] == BASE;
    }

    /** The needle at its row and the sign; returns the magnitude the digits
        are drawn from. */
    method DrawNeedle(percentage: int) returns (magnitude: int)
      requires |fb| == N
      modifies this
      ensures magnitude == (if percentage < 0 then -percentage else percentage)
      ensures fb == PaintAll(old(fb), [NeedleRect(percentage)] + SignRects(percentage))
    {
      var s, sb, size, thick := 4, 16, 16, 4;
      ghost var start := fb;
      var position := NeedleRow(percentage);
      FillRect(100 + 4 * s, position - sb / 2, 100 - 8 * s, sb, Black);
      PaintOne(start, NeedleRect(percentage));
      var posy := 100 + s;
      magnitude := percentage;
      if percentage > 0 {
        FillRect(0, posy - thick / 2, size, thick, Black);
        PaintAllSnoc(start, [NeedleRect(percentage)], SIGN_BAR);
        FillRect(0 + size / 2 - thick / 2, posy - size / 2, thick, size, Black);
        PaintAllSnoc(start, [NeedleRect(percentage), SIGN_BAR], SIGN_STEM);
        assert [NeedleRect(percentage)] + [SIGN_BAR] == [NeedleRect(percentage), SIGN_BAR];
        assert [NeedleRect(percentage), SIGN_BAR] + [SIGN_STEM] == [NeedleRect(percentage)] + SignRects(percentage);
      } else if percentage < 0 {
        FillRect(0, posy - thick / 2, size, thick, Black);
        PaintAllSnoc(start, [NeedleRect(percentage)], SIGN_BAR);
        assert [NeedleRect(percentage)] + [SIGN_BAR] == [NeedleRect(percentage)] + SignRects(percentage);
        magnitude := -percentage;
      } else {
        assert [NeedleRect(percentage)] + SignRects(percentage) == [NeedleRect(percentage)];
      }
    }

    /** The hundreds (if nonzero), the tens (if they or the hundreds are
        nonzero) and the ones; a hundreds digit of 10 or more raises
        IndexError in `seven_seg` before anything of the digits is drawn. */
    method DrawDigits(magnitude: int) returns (raised: bool)
      requires |fb| == N && magnitude >= 0
      modifies this
      ensures raised <==> magnitude >= 1000
      ensures raised ==> fb == old(fb)
      ensures !raised ==> fb == PaintAll(old(fb), DigitsPlan(magnitude))
    {
      var size, thick := 16, 4;
      var posy := 100 + 4 - size - thick;
      ghost var start := fb;
      var h := magnitude / 100;
      raised := false;
      if h > 0 {
        raised := SevenSeg(20, posy, size, thick, h);
        if raised {
          return;
        }
      }
      ghost var afterH := fb;
      var t := (magnitude % 100) / 10;
      if h > 0 || t > 0 {
        raised := SevenSeg(45, posy, size, thick, t);
      }
      ghost var afterT := fb;
      raised := SevenSeg(70, posy, size, thick, magnitude % 10);
      DigitsPainted(start, afterH, afterT, fb, magnitude);
    }

    /** The setup marker and the bar of the endpoint being taught. */
    method DrawSetup(setupmode: int)
      requires |fb| == N
      modifies this
      ensures fb == PaintAll(old(fb), SetupRects(setupmode))
    {
      var s, sb := 4, 16;
      if setupmode >= 1 {
        ghost var start := fb;
        FillRect(5, 0, 15, 15, Black);
        PaintOne(start, SETUP_MARK);
        if setupmode == 2 {
          FillRect(30, H - sb, 100 - 8 * s, sb, Black);
          PaintAllSnoc(start, [SETUP_MARK], BAR_FULL_UP);
        } else if setupmode == 3 {
          FillRect(30, 100 - sb / 2, 100 - 8 * s, sb, Black);
          PaintAllSnoc(start, [SETUP_MARK], BAR_NEUTRAL);
        } else if setupmode == 4 {
          FillRect(30, 0, 100 - 8 * s, sb, Black);
          PaintAllSnoc(start, [SETUP_MARK], BAR_FULL_DOWN);
        }
      }
    }
  }

  /** The picture in the modes with a needle, layer by layer, as
      `indicator` paints it. */
  lemma RenderNeedleModes(p: int, mode: int)
    requires mode == 0 || mode == 1
    requires -1000 < p < 1000
    ensures !IndicatorPlan(p, mode).raised
    ensures Render(p, mode)
         == PaintAll(PaintAll(PaintAll(PaintAll(Blank(), BASE), [NeedleRect(p)] + SignRects(p)),
                              DigitsPlan(if p < 0 then -p else p)), SetupRects(mode))
  {
    var a := if p < 0 then -p else p;
    var ns := [NeedleRect(p)] + SignRects(p);
    assert IndicatorPlan(p, mode).rects == ((BASE + ns) + DigitsPlan(a)) + SetupRects(mode);
    PaintAllAppend(Blank(), (BASE + ns) + DigitsPlan(a), SetupRects(mode));
    PaintAllAppend(Blank(), BASE + ns, DigitsPlan(a));
    PaintAllAppend(Blank(), BASE, ns);
  }

  /** The picture `indicator` leaves when a hundreds digit of 10 or more
      raises: frame, needle and sign. */
  lemma RenderRaised(p: int, mode: int)
    requires mode == 0 || mode == 1
    requires p <= -1000 || p >= 1000
    ensures IndicatorPlan(p, mode).raised
    ensures Render(p, mode) == PaintAll(PaintAll(Blank(), BASE), [NeedleRect(p)] + SignRects(p))
  {
    var ns := [NeedleRect(p)] + SignRects(p);
    assert IndicatorPlan(p, mode).rects == BASE + ns;
    PaintAllAppend(Blank(), BASE, ns);
  }

  lemma RenderOtherModes(p: int, mode: int)
    requires mode != 0 && mode != 1
    ensures !IndicatorPlan(p, mode).raised
    ensures Render(p, mode) == PaintAll(PaintAll(Blank(), BASE), SetupRects(mode))
  {
    PaintAllAppend(Blank(), BASE, SetupRects(mode));
  }

  /** The three `seven_seg` calls of `indicator` together paint `DigitsPlan`. */
  lemma DigitsPainted(start: seq<Color>, afterH: seq<Color>, afterT: seq<Color>, after: seq<Color>, a: int)
    requires |start| == N && 0 <= a < 1000
    requires afterH == (if a / 100 > 0 then PaintAll(start, DigitRects(20, 84, 16, 4, a / 100)) else start)
    requires afterT == (if a / 100 > 0 || (a % 100) / 10 > 0
                        then PaintAll(afterH, DigitRects(45, 84, 16, 4, (a % 100) / 10)) else afterH)
    requires after == PaintAll(afterT, DigitRects(70, 84, 16, 4, a % 10))
    ensures after == PaintAll(start, DigitsPlan(a))
  {
    var hs := if a / 100 > 0 then DigitRects(20, 84, 16, 4, a / 100) else [];
    var ts := if a / 100 > 0 || (a % 100) / 10 > 0 then DigitRects(45, 84, 16, 4, (a % 100) / 10) else [];
    var os := DigitRects(70, 84, 16, 4, a % 10);
    DigitsRectsOfDrawn(a);
    assert DigitsPlan(a) == (hs + ts) + os;
    PaintAllAppend(start, hs + ts, os);
    PaintAllAppend(start, hs, ts);
  }

  lemma EmptyAppend<T>(a: seq<T>)
    ensures [] + a == a
  {
  }

  lemma PaintOne(f: seq<Color>, r: Rect)
    requires |f| == N
    ensures PaintAll(f, [r]) == Paint(f, r)
  {
    assert [r][..0] == [];
  }

  /** One step of `seven_seg`'s loop. */
  lemma SevenSegStep(start: seq<Color>, before: seq<Color>, after: seq<Color>,
                     x: int, y: int, size: int, thick: int, segs: seq<int>, i: int)
    requires |start| == N && 0 <= i < |segs|
    requires before == PaintAll(start, SegmentRects(x, y, size, thick, segs[..i]))
    requires after == PaintAll(before, LedRects(x, y, size, thick, segs[i]))
    ensures after == PaintAll(start, SegmentRects(x, y, size, thick, segs[..i + 1]))
  {
    assert segs[..i + 1][..i] == segs[..i];
    PaintAllAppend(start, SegmentRects(x, y, size, thick, segs[..i]), LedRects(x, y, size, thick, segs[i]));
  }
}
