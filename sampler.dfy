/**
 * The sampling part of `handleImageFile` (app.jsx): the central sample block
 * of the rescaled canvas, and the loop that averages red, green and blue over
 * the RGBA bytes `getImageData` returns for it.
 */
module Sampler {
  import opened Wrappers
  import opened Rounding
  import opened HexColor

  /** One element of the `Uint8ClampedArray` the canvas returns. */
  newtype byte = x: int | 0 <= x < 256

  /** The canvas is always redrawn 300 units wide. */
  const WorkingWidth: nat := 300

  datatype Rect = Rect(x: nat, y: nat, width: nat, height: nat)

  /**
   * `sx = floor(0.35 w)`, `sy = floor(0.35 h)`, `sw = max(20, floor(0.3 w))`,
   * `sh = max(20, floor(0.3 h))`: a block at least 20 by 20.
   */
  function SampleRect(w: nat, h: nat): (r: Rect)
    ensures r.width >= 20 && r.height >= 20
    ensures 100 * r.x <= 35 * w < 100 * (r.x + 1)
    ensures 100 * r.y <= 35 * h < 100 * (r.y + 1)
    ensures 30 * w < 2000 ==> r.width == 20
    ensures 30 * w >= 2000 ==> 100 * r.width <= 30 * w < 100 * (r.width + 1)
    ensures 30 * h < 2000 ==> r.height == 20
    ensures 30 * h >= 2000 ==> 100 * r.height <= 30 * h < 100 * (r.height + 1)
  {
    var sw := 30 * w / 100;
    var sh := 30 * h / 100;
    Rect(35 * w / 100, 35 * h / 100, if sw < 20 then 20 else sw, if sh < 20 then 20 else sh)
  }

  /**
   * On the 300-wide canvas the block (105, 90 wide) lies inside horizontally,
   * and it lies inside vertically exactly when the rescaled height is at least 30.
   */
  lemma {:induction false} SampleRectInside(h: nat)
    ensures var r := SampleRect(WorkingWidth, h); r.x == 105 && r.width == 90
    ensures var r := SampleRect(WorkingWidth, h); r.y + r.height <= h <==> h >= 30
  {
    var r := SampleRect(WorkingWidth, h);
    if h >= 67 {
      assert 100 * (r.y + r.height) <= 65 * h;
    } else if h >= 30 {
      assert r.height == 20;
      assert 100 * r.y <= 35 * h;
    } else {
      assert r.height == 20;
      assert 100 * r.y + 100 > 35 * h;
    }
  }

  /**
   * The total of channel `c` (0 red, 1 green, 2 blue) over the first `n`
   * pixels of RGBA bytes. Every byte is at most 255, so the total is at most
   * `255 n` and the mean at most 255.
   */
  function ChannelSum(s: seq<byte>, c: nat, n: nat): (t: nat)
    requires c < 3 && 4 * n <= |s|
    ensures t <= 255 * n
  {
    if n == 0 then 0 else ChannelSum(s, c, n - 1) + s[4 * (n - 1) + c] as int
  }

  /** The alpha byte of a pixel never enters a channel total: changing only alpha bytes changes no total. */
  lemma {:induction false} ChannelSumIgnoresAlpha(s: seq<byte>, t: seq<byte>, c: nat, n: nat)
    requires c < 3 && 4 * n <= |s| && |s| == |t|
    requires forall i :: 0 <= i < |s| && i % 4 != 3 ==> s[i] == t[i]
    ensures ChannelSum(s, c, n) == ChannelSum(t, c, n)
  {
    if n > 0 {
      ChannelSumIgnoresAlpha(s, t, c, n - 1);
      assert (4 * (n - 1) + c) % 4 == c;
    }
  }

  /**
   * The accumulators once the loop is done. The page then replaces `r` by
   * `r / count` and so on, so the mean red is the fraction `rSum / count`.
   */
  datatype Mean = Mean(rSum: nat, gSum: nat, bSum: nat, count: nat)

  /**
   * The averaging loop: for `i = 0, 4, 8, ...` add bytes `i`, `i + 1` and
   * `i + 2` to the red, green and blue totals and count one pixel.
   */
  method AverageColor(data: array<byte>) returns (m: Mean)
    requires data.Length % 4 == 0
    ensures m.count == data.Length / 4
    ensures m.rSum == ChannelSum(data[..], 0, m.count)
    ensures m.gSum == ChannelSum(data[..], 1, m.count)
    ensures m.bSum == ChannelSum(data[..], 2, m.count)
    ensures m.rSum <= 255 * m.count && m.gSum <= 255 * m.count && m.bSum <= 255 * m.count
  {
    var r, g, b, count := 0, 0, 0, 0;
    var i := 0;
    while i < data.Length
      invariant i == 4 * count && i <= data.Length
      invariant r == ChannelSum(data[..], 0, count)
      invariant g == ChannelSum(data[..], 1, count)
      invariant b == ChannelSum(data[..], 2, count)
    {
      r := r + data[i] as int;
      g := g + data[i + 1] as int;
      b := b + data[i + 2] as int;
      count := count + 1;
      i := i + 4;
    }
    m := Mean(r, g, b, count);
  }

  /** The `avgColor` state: the rounded means and the hex string of the unrounded ones. */
  datatype AvgColor = AvgColor(r: nat, g: nat, b: nat, hex: string)

  /**
   * `{ r: Math.round(r), g: Math.round(g), b: Math.round(b), hex: hexFromRGB(r, g, b) }`.
   * The hex string spells exactly the three rounded channels it is shown beside.
   */
  function MeanColor(m: Mean): (c: AvgColor)
    requires m.count > 0
    ensures c.r == RoundHalfUp(m.rSum, m.count) && c.g == RoundHalfUp(m.gSum, m.count)
    ensures c.b == RoundHalfUp(m.bSum, m.count)
    ensures m.rSum <= 255 * m.count && m.gSum <= 255 * m.count && m.bSum <= 255 * m.count ==>
      c.r <= 255 && c.g <= 255 && c.b <= 255 &&
      IsUpperHexColor(c.hex) && ParseHexColor(c.hex) == Some(Rgb(c.r, c.g, c.b))
  {
    var c := AvgColor(RoundHalfUp(m.rSum, m.count), RoundHalfUp(m.gSum, m.count), RoundHalfUp(m.bSum, m.count),
                      HexFromRGB(m.rSum, m.gSum, m.bSum, m.count));
    if m.rSum <= 255 * m.count && m.gSum <= 255 * m.count && m.bSum <= 255 * m.count then
      HexRoundTrip(m.rSum, m.gSum, m.bSum, m.count);
      c
    else
      c
  }
}
