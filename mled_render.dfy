/**
 * The line renderer of the audio monitor, `generate_lua_code`
 * (mled/mled.py:101-180): three band levels become three coloured lines
 * that grow outward from the centre of the strip with a quadratic fall-off,
 * bass in the red channel, mid in green and treble in blue.
 *
 * `Frame` is the declarative reading of the renderer: the value of each
 * channel of each pixel, as a function of that pixel's distance from the
 * centre and of that channel's own band. `RenderLeds` is the source's
 * imperative procedure (fill with black, walk outward, force the centre)
 * and is proved to produce exactly `Frame`. The lemmas state what the frame
 * promises: bounds, symmetry, dark beyond the reach, monotone fall-off,
 * the forced centre and the independence of the channels.
 *
 * Levels are reals; Python's `int()` of the non-negative products is `Floor`.
 */
module LineRenderer {
  import opened Common
  import LuaTable

  /** MAX_COLOR_INTENSITY (mled/mled.py:41) */
  const MaxColorIntensity: nat := 0xAA

  /** The default strip length of `generate_lua_code` (mled/mled.py:101). */
  const DefaultPixNum: nat := 300

  datatype Levels = Levels(bass: real, mid: real, treble: real)

  /** The level driving channel `c`: 0 is red (bass), 1 green (mid), 2 blue (treble). */
  function Level(levels: Levels, c: nat): real
    requires c < 3
  {
    if c == 0 then levels.bass else if c == 1 then levels.mid else levels.treble
  }

  /** `max(0.0, min(1.0, x))` (mled/mled.py:116-118) */
  function Clamp(x: real): (r: real)
    ensures 0.0 <= r <= 1.0
    ensures x <= 0.0 ==> r == 0.0
    ensures x >= 1.0 ==> r == 1.0
    ensures 0.0 <= x <= 1.0 ==> r == x
  {
    if x < 0.0 then 0.0 else if x > 1.0 then 1.0 else x
  }

  /** `center = pix_num // 2` (mled/mled.py:121) */
  function Center(pixNum: nat): nat
  {
    pixNum / 2
  }

  /** `int(level * max_reach)` with the clamped level and `max_reach = center` (mled/mled.py:122-127) */
  function Reach(level: real, center: nat): (r: nat)
    ensures r <= center
    ensures level <= 0.0 ==> r == 0
    ensures level >= 1.0 ==> r == center
  {
    var c := Clamp(level);
    var x := c * center as real;
    ProductBelow(c, center as real);
    assert 0.0 <= x <= center as real;
    assert c == 1.0 ==> x == center as real;
    x.Floor
  }

  lemma ProductBelow(a: real, b: real)
    requires 0.0 <= a <= 1.0 && 0.0 <= b
    ensures 0.0 <= a * b <= b
  {
    assert a * b <= 1.0 * b;
  }

  function Square(x: real): real { x * x }

  lemma QuotientMonotone(a: real, b: real, c: real)
    requires 0.0 <= a <= b && 0.0 < c
    ensures 0.0 <= a / c <= b / c
  {
    assert b / c - a / c == (b - a) / c;
  }

  lemma PositiveSquare(x: real)
    requires x > 0.0
    ensures x * x > 0.0
  {
  }

  lemma SquareMonotone(x: real, y: real)
    requires 0.0 <= x <= y
    ensures Square(x) <= Square(y)
  {
    assert x * x <= x * y <= y * y;
  }

  /**
   * `calculate_intensity(d, reach)` (mled/mled.py:136-142): zero for a
   * zero reach, otherwise `int(170 * (1 - (d/reach)**2))`. The renderer
   * only calls it with `d <= reach`, where the product is non-negative and
   * `int()` is `Floor`.
   */
  function Intensity(d: nat, reach: nat): (v: nat)
    requires d <= reach
    ensures v <= MaxColorIntensity
    ensures d == reach ==> v == 0
    ensures 1 <= d ==> v < MaxColorIntensity
  {
    if reach == 0 then 0
    else
      var ratio := d as real / reach as real;
      assert 0.0 <= ratio <= 1.0;
      SquareMonotone(ratio, 1.0);
      assert 1 <= d ==> Square(ratio) > 0.0 by {
        if 1 <= d {
          assert ratio > 0.0;
          PositiveSquare(ratio);
          assert Square(ratio) == ratio * ratio;
        }
      }
      (MaxColorIntensity as real * (1.0 - Square(ratio))).Floor
  }

  /** A smaller distance never gets a dimmer intensity. */
  lemma IntensityNonIncreasing(d1: nat, d2: nat, reach: nat)
    requires d1 <= d2 <= reach
    ensures Intensity(d1, reach) >= Intensity(d2, reach)
  {
    if reach > 0 {
      var r1 := d1 as real / reach as real;
      var r2 := d2 as real / reach as real;
      QuotientMonotone(d1 as real, d2 as real, reach as real);
      SquareMonotone(r1, r2);
      var x1 := MaxColorIntensity as real * (1.0 - Square(r1));
      var x2 := MaxColorIntensity as real * (1.0 - Square(r2));
      assert x2 <= x1;
    }
  }

  /** How far pixel `p` lies from the centre. */
  function Dist(p: nat, center: nat): nat
  {
    if p >= center then p - center else center - p
  }

  /**
   * The value a band with the given reach leaves in its own channel at
   * distance `d`: the forced full intensity at the centre when the reach is
   * positive (mled/mled.py:167-174), the quadratic fall-off for
   * `1 <= d <= reach` (mled/mled.py:145-164), black everywhere else.
   */
  function ChannelValue(reach: nat, d: nat): (v: nat)
    ensures v <= MaxColorIntensity
    ensures d > reach ==> v == 0
    ensures d == 0 ==> (v == MaxColorIntensity <==> reach > 0)
    ensures 1 <= d ==> v < MaxColorIntensity
  {
    if d == 0 then (if reach > 0 then MaxColorIntensity else 0)
    else if d <= reach then Intensity(d, reach)
    else 0
  }

  /** The reach of the band behind channel `c` on a strip of `pixNum` LEDs. */
  function ChannelReach(levels: Levels, pixNum: nat, c: nat): nat
    requires c < 3
  {
    Reach(Level(levels, c), Center(pixNum))
  }

  /** Channel `c` of pixel `k / 3`, for the flat index `k` of the R,G,B list. */
  function FrameAt(levels: Levels, pixNum: nat, k: nat): nat
  {
    ChannelValue(ChannelReach(levels, pixNum, k % 3), Dist(k / 3, Center(pixNum)))
  }

  /** The flat `leds` list that `generate_lua_code` serialises: R,G,B per pixel, pixels in order. */
  function Frame(levels: Levels, pixNum: nat): (f: seq<nat>)
    ensures |f| == 3 * pixNum
  {
    seq(3 * pixNum, k requires 0 <= k < 3 * pixNum => FrameAt(levels, pixNum, k))
  }

  /** Channel `c` of pixel `p` of the frame, read through the flat index `3*p + c`. */
  lemma FrameChannel(levels: Levels, pixNum: nat, p: nat, c: nat)
    requires p < pixNum && c < 3
    ensures 3 * p + c < 3 * pixNum
    ensures Frame(levels, pixNum)[3 * p + c]
         == ChannelValue(ChannelReach(levels, pixNum, c), Dist(p, Center(pixNum)))
  {
    assert (3 * p + c) / 3 == p && (3 * p + c) % 3 == c;
  }

  // ---------------------------------------------------------------------
  // The imperative renderer
  // ---------------------------------------------------------------------

  /** What the array holds after the outward walk has handled distances `1 .. i - 1`. */
  function Walked(reaches: seq<nat>, center: nat, k: nat, i: nat): nat
    requires |reaches| == 3
  {
    var d := Dist(k / 3, center);
    var reach := reaches[k % 3];
    if 1 <= d < i && d <= reach then Intensity(d, reach) else 0
  }

  /** Handling distance `i` changes exactly the channels of the two pixels at distance `i`. */
  lemma WalkedStep(reaches: seq<nat>, center: nat, k: nat, i: nat)
    requires |reaches| == 3 && 1 <= i
    ensures Dist(k / 3, center) != i ==> Walked(reaches, center, k, i + 1) == Walked(reaches, center, k, i)
    ensures Dist(k / 3, center) == i ==>
              Walked(reaches, center, k, i + 1) == if i <= reaches[k % 3] then Intensity(i, reaches[k % 3]) else 0
    ensures Dist(k / 3, center) == i ==> Walked(reaches, center, k, i) == 0
  {
  }

  /** Once every distance up to the largest reach is handled and the centre is forced, the array is the frame. */
  lemma WalkedComplete(levels: Levels, pixNum: nat, reaches: seq<nat>, k: nat, maxReach: nat)
    requires k < 3 * pixNum
    requires reaches == [ChannelReach(levels, pixNum, 0), ChannelReach(levels, pixNum, 1), ChannelReach(levels, pixNum, 2)]
    requires forall c :: 0 <= c < 3 ==> reaches[c] <= maxReach
    ensures Dist(k / 3, Center(pixNum)) != 0 ==> Walked(reaches, Center(pixNum), k, maxReach + 1) == FrameAt(levels, pixNum, k)
    ensures Dist(k / 3, Center(pixNum)) == 0 ==>
              FrameAt(levels, pixNum, k) == if reaches[k % 3] > 0 then MaxColorIntensity else Walked(reaches, Center(pixNum), k, maxReach + 1)
  {
    assert reaches[k % 3] == ChannelReach(levels, pixNum, k % 3);
  }

  /**
   * One side of one step of the outward walk (mled/mled.py:147-154 and
   * 157-164): at distance `i`, each band whose reach is at least `i`
   * writes its own channel of `pixel`.
   */
  method LightPixel(a: array<nat>, pixel: nat, i: nat, bassReach: nat, midReach: nat, trebleReach: nat)
    requires 3 * pixel + 2 < a.Length
    modifies a
    ensures forall k :: 0 <= k < a.Length ==>
              a[k] == var reach := [bassReach, midReach, trebleReach][k % 3];
                      if k / 3 == pixel && i <= reach then Intensity(i, reach) else old(a[k])
  {
    var idx := pixel * 3;
    if i <= bassReach { a[idx] := Intensity(i, bassReach); }
    if i <= midReach { a[idx + 1] := Intensity(i, midReach); }
    if i <= trebleReach { a[idx + 2] := Intensity(i, trebleReach); }
  }

  /**
   * The outward walk (mled/mled.py:145-164): for each distance `i` from 1 to
   * the largest reach, light the pixel at `center + i` when it exists and
   * the one at `center - i`, each band only within its own reach.
   */
  method WalkOutward(a: array<nat>, pixNum: nat, center: nat, bassReach: nat, midReach: nat, trebleReach: nat, maxReach: nat)
    requires a.Length == 3 * pixNum && center == pixNum / 2 && bassReach <= center && midReach <= center && trebleReach <= center
    requires maxReach == bassReach || maxReach == midReach || maxReach == trebleReach
    requires bassReach <= maxReach && midReach <= maxReach && trebleReach <= maxReach
    requires forall k :: 0 <= k < a.Length ==> a[k] == 0
    modifies a
    ensures forall k :: 0 <= k < a.Length ==> a[k] == Walked([bassReach, midReach, trebleReach], center, k, maxReach + 1)
  {
    ghost var reaches := [bassReach, midReach, trebleReach];
    var i := 1;
    while i <= maxReach
      invariant 1 <= i <= maxReach + 1
      invariant forall k :: 0 <= k < a.Length ==> a[k] == Walked(reaches, center, k, i)
    {
      ghost var before := a[..];
      if center + i < pixNum {
        LightPixel(a, center + i, i, bassReach, midReach, trebleReach);
      }
      if center - i >= 0 {
        LightPixel(a, center - i, i, bassReach, midReach, trebleReach);
      }
      forall k | 0 <= k < a.Length
        ensures a[k] == Walked(reaches, center, k, i + 1)
      {
        WalkedStep(reaches, center, k, i);
        assert before[k] == Walked(reaches, center, k, i);
      }
      i := i + 1;
    }
  }

  /** `leds.extend([0, 0, 0])` for each of the `pix_num` pixels (mled/mled.py:129-133). */
  method FillBlack(a: array<nat>, pixNum: nat)
    requires a.Length == 3 * pixNum
    modifies a
    ensures forall k :: 0 <= k < a.Length ==> a[k] == 0
  {
    var p := 0;
    while p < pixNum
      invariant 0 <= p <= pixNum
      invariant forall k :: 0 <= k < 3 * p ==> a[k] == 0
    {
      a[3 * p] := 0;
      a[3 * p + 1] := 0;
      a[3 * p + 2] := 0;
      p := p + 1;
    }
  }

  /**
   * The centre pixel (mled/mled.py:166-174): each channel whose band has a
   * positive reach is forced to full intensity; nothing else changes.
   */
  method ForceCentre(a: array<nat>, pixNum: nat, center: nat, bassReach: nat, midReach: nat, trebleReach: nat)
    requires a.Length == 3 * pixNum && center == pixNum / 2
    requires bassReach <= center && midReach <= center && trebleReach <= center
    modifies a
    ensures forall k :: 0 <= k < a.Length ==>
              a[k] == var reach := [bassReach, midReach, trebleReach][k % 3];
                      if k / 3 == center && reach > 0 then MaxColorIntensity else old(a[k])
  {
    if bassReach > 0 || midReach > 0 || trebleReach > 0 {
      var idx := center * 3;
      if bassReach > 0 { a[idx] := MaxColorIntensity; }
      if midReach > 0 { a[idx + 1] := MaxColorIntensity; }
      if trebleReach > 0 { a[idx + 2] := MaxColorIntensity; }
    }
  }

  /**
   * `generate_lua_code` up to the serialisation (mled/mled.py:115-174):
   * clamp, compute the reaches, fill `3 * pix_num` zeros, walk outward from
   * the centre writing each band's own channel on both sides, then force
   * the centre. Every write is in bounds, and the list it leaves is `Frame`.
   */
  method RenderLeds(levels: Levels, pixNum: nat) returns (leds: seq<nat>)
    ensures leds == Frame(levels, pixNum)
  {
    var center := pixNum / 2;
    var bassReach := Reach(levels.bass, center);
    var midReach := Reach(levels.mid, center);
    var trebleReach := Reach(levels.treble, center);
    ghost var reaches := [bassReach, midReach, trebleReach];

    var a := new nat[3 * pixNum];
    FillBlack(a, pixNum);

    var maxReach := bassReach;
    if midReach > maxReach { maxReach := midReach; }
    if trebleReach > maxReach { maxReach := trebleReach; }

    WalkOutward(a, pixNum, center, bassReach, midReach, trebleReach, maxReach);

    ForceCentre(a, pixNum, center, bassReach, midReach, trebleReach);

    leds := a[..];
    forall k | 0 <= k < 3 * pixNum
      ensures leds[k] == Frame(levels, pixNum)[k]
    {
      WalkedComplete(levels, pixNum, reaches, k, maxReach);
    }
  }

  /**
   * `generate_lua_code(bass, mid, treble, pix_num)` (mled/mled.py:101-180):
   * the Lua chunk `return {...}` holding the rendered frame, which reads
   * back as exactly `3 * pix_num` values.
   */
  method GenerateLuaCode(bass: real, mid: real, treble: real, pixNum: nat) returns (code: string)
    ensures code == LuaTable.LuaCode(Frame(Levels(bass, mid, treble), pixNum))
    ensures LuaTable.ParseLuaTable(code) == Some(Frame(Levels(bass, mid, treble), pixNum))
  {
    var leds := RenderLeds(Levels(bass, mid, treble), pixNum);
    code := LuaTable.LuaCode(leds);
    LuaTable.ParseLuaCode(leds);
  }

  // ---------------------------------------------------------------------
  // What the frame promises
  // ---------------------------------------------------------------------

  /** Every reach lies in `[0, pix_num // 2]`, whatever the input level. */
  lemma ReachBounded(levels: Levels, pixNum: nat, c: nat)
    requires c < 3
    ensures 0 <= ChannelReach(levels, pixNum, c) <= pixNum / 2
  {
  }

  /** Every emitted value lies in `[0, MAX_COLOR_INTENSITY]`. */
  lemma FrameBounded(levels: Levels, pixNum: nat)
    ensures forall k :: 0 <= k < 3 * pixNum ==> Frame(levels, pixNum)[k] <= MaxColorIntensity
  {
  }

  /**
   * The centre channel of a band is full intensity exactly when its reach
   * is positive, and black when the reach is zero.
   */
  lemma CenterChannel(levels: Levels, pixNum: nat, c: nat)
    requires 0 < pixNum && c < 3
    ensures Center(pixNum) < pixNum
    ensures Frame(levels, pixNum)[3 * Center(pixNum) + c]
         == if ChannelReach(levels, pixNum, c) > 0 then MaxColorIntensity else 0
  {
    FrameChannel(levels, pixNum, Center(pixNum), c);
  }

  /** A band with reach 0 leaves its channel black on every pixel, the centre included. */
  lemma ZeroReachIsDark(levels: Levels, pixNum: nat, c: nat)
    requires c < 3 && ChannelReach(levels, pixNum, c) == 0
    ensures forall p :: 0 <= p < pixNum ==> Frame(levels, pixNum)[3 * p + c] == 0
  {
    forall p | 0 <= p < pixNum ensures Frame(levels, pixNum)[3 * p + c] == 0 {
      FrameChannel(levels, pixNum, p, c);
    }
  }

  /** At a distance of at least its reach from the centre, a band's channel is black. */
  lemma DarkBeyondReach(levels: Levels, pixNum: nat, p: nat, c: nat)
    requires p < pixNum && c < 3
    requires Dist(p, Center(pixNum)) >= ChannelReach(levels, pixNum, c)
    ensures Frame(levels, pixNum)[3 * p + c] == 0
  {
    FrameChannel(levels, pixNum, p, c);
  }

  /** Within each channel the value never increases as the distance from the centre grows. */
  lemma FallOffNonIncreasing(levels: Levels, pixNum: nat, p1: nat, p2: nat, c: nat)
    requires p1 < pixNum && p2 < pixNum && c < 3
    requires Dist(p1, Center(pixNum)) <= Dist(p2, Center(pixNum))
    ensures Frame(levels, pixNum)[3 * p1 + c] >= Frame(levels, pixNum)[3 * p2 + c]
  {
    FrameChannel(levels, pixNum, p1, c);
    FrameChannel(levels, pixNum, p2, c);
    var reach := ChannelReach(levels, pixNum, c);
    var d1, d2 := Dist(p1, Center(pixNum)), Dist(p2, Center(pixNum));
    if 1 <= d1 && d2 <= reach {
      IntensityNonIncreasing(d1, d2, reach);
    }
  }

  /** Pixels `center + i` and `center - i` carry the same triple whenever both exist. */
  lemma Mirrored(levels: Levels, pixNum: nat, i: nat, c: nat)
    requires Center(pixNum) + i < pixNum && i <= Center(pixNum) && c < 3
    ensures Frame(levels, pixNum)[3 * (Center(pixNum) + i) + c]
         == Frame(levels, pixNum)[3 * (Center(pixNum) - i) + c]
  {
    var center, reach := Center(pixNum), ChannelReach(levels, pixNum, c);
    FrameChannel(levels, pixNum, center + i, c);
    FrameChannel(levels, pixNum, center - i, c);
    assert Dist(center + i, center) == i == Dist(center - i, center);
    assert Frame(levels, pixNum)[3 * (center + i) + c] == ChannelValue(reach, i);
  }

  /**
   * Bass, mid and treble write only their own channel: a channel depends on
   * its own band's level and on nothing the other two bands carry.
   */
  lemma ChannelsIndependent(levels1: Levels, levels2: Levels, pixNum: nat, p: nat, c: nat)
    requires p < pixNum && c < 3 && Level(levels1, c) == Level(levels2, c)
    ensures Frame(levels1, pixNum)[3 * p + c] == Frame(levels2, pixNum)[3 * p + c]
  {
    FrameChannel(levels1, pixNum, p, c);
    FrameChannel(levels2, pixNum, p, c);
  }

  /**
   * Full levels on the default strip: 900 values, the same count as the
   * sandbox's LED_NUM, and a centre pixel of (170, 170, 170).
   */
  lemma FullLevelsOnDefaultStrip()
    ensures |Frame(Levels(1.0, 1.0, 1.0), DefaultPixNum)| == 900
    ensures Frame(Levels(1.0, 1.0, 1.0), DefaultPixNum)[450 .. 453] == [170, 170, 170]
  {
    var f := Frame(Levels(1.0, 1.0, 1.0), DefaultPixNum);
    CenterChannel(Levels(1.0, 1.0, 1.0), DefaultPixNum, 0);
    CenterChannel(Levels(1.0, 1.0, 1.0), DefaultPixNum, 1);
    CenterChannel(Levels(1.0, 1.0, 1.0), DefaultPixNum, 2);
  }

  /**
   * Levels (1.0, 0.5, 0.25) on four LEDs: reaches 2, 1 and 0 around centre 2.
   * The tip of each line (distance == reach) is black, so only the red line
   * shows beside the centre, at `int(170 * 0.75) == 127`.
   */
  lemma FourPixelExample()
    ensures Frame(Levels(1.0, 0.5, 0.25), 4) == [0, 0, 0, 127, 0, 0, 170, 170, 0, 127, 0, 0]
  {
    var levels := Levels(1.0, 0.5, 0.25);
    assert ChannelReach(levels, 4, 0) == 2;
    assert ChannelReach(levels, 4, 1) == 1;
    assert ChannelReach(levels, 4, 2) == 0;
    assert Intensity(1, 2) == 127 by {
      assert 1 as real / 2 as real == 0.5;
      assert MaxColorIntensity as real * (1.0 - Square(0.5)) == 127.5;
    }
    var f := Frame(levels, 4);
    forall k | 0 <= k < 12
      ensures f[k] == [0, 0, 0, 127, 0, 0, 170, 170, 0, 127, 0, 0][k]
    {
      assert f[k] == FrameAt(levels, 4, k);
    }
  }
}
