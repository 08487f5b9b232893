/** The per-screen-class configuration table of the curves scene. */
module Configuration {
  import opened Types

  /** The recognised options of the scene (colours are 24-bit RGB integers). */
  datatype Config = Config(
    viewHeight: real,
    gutterWorld: real,
    pointPx: real,
    capPxGreen: real,
    capPxBlue: real,
    orbRadius: real,
    backwardFadeFraction: real,
    green: int,
    blue: int,
    lineSegments: int,
    speed: real,
    maxDeltaTime: real,
    eps: real)

  /** The constants the progress state machine, the orb and the curve buffers rely on. */
  predicate WellFormed(cfg: Config) {
    && 0.0 < cfg.eps < 0.5
    && cfg.maxDeltaTime > 0.0
    && cfg.speed > 0.0
    && 0.0 < cfg.backwardFadeFraction <= 1.0
    && cfg.lineSegments >= 1
  }

  /** Position of a screen class in the order S < M < L < XL. */
  function Rank(sw: ScreenWidth): nat {
    match sw
    case S => 0
    case M => 1
    case L => 2
    case XL => 3
  }

  /** Classify a window width in CSS pixels: four bands, each in both directions. */
  function GetScreenWidth(w: real): (sw: ScreenWidth)
    ensures sw == S <==> w <= 500.0
    ensures sw == M <==> 500.0 < w <= 768.0
    ensures sw == L <==> 768.0 < w <= 1024.0
    ensures sw == XL <==> 1024.0 < w
  {
    if w <= 500.0 then S else if w <= 768.0 then M else if w <= 1024.0 then L else XL
  }

  /** Point size in pixels for a screen class, read off the table 3, 6, 8, 9 by rank. */
  function PointPxForScreen(sw: ScreenWidth): (px: real)
    ensures px == [3.0, 6.0, 8.0, 9.0][Rank(sw)]
    ensures 3.0 <= px <= 9.0
  {
    match sw
    case S => 3.0
    case M => 6.0
    case L => 8.0
    case XL => 9.0
  }

  function MakeConfig(sw: ScreenWidth): (cfg: Config)
    ensures cfg.pointPx == PointPxForScreen(sw)
    ensures cfg.capPxGreen == 1.2 * cfg.pointPx && cfg.capPxBlue == 1.4 * cfg.pointPx
    ensures 0.0 < cfg.capPxGreen < cfg.capPxBlue
    ensures WellFormed(cfg)
    ensures cfg.maxDeltaTime == 1.0 / 30.0 && cfg.speed == 1.0 && cfg.eps == 0.0001
    ensures cfg.backwardFadeFraction == 0.4 && cfg.lineSegments == 2000
    ensures cfg.viewHeight == 20.0 && cfg.gutterWorld == 1.0 && cfg.orbRadius == 0.5
    ensures cfg.green == 0x00ff00 && cfg.blue == 0x0000ff
  {
    var pointPx := PointPxForScreen(sw);
    Config(
      viewHeight := 20.0,
      gutterWorld := 1.0,
      pointPx := pointPx,
      capPxGreen := pointPx * 1.2,
      capPxBlue := pointPx * 1.4,
      orbRadius := 0.5,
      backwardFadeFraction := 0.4,
      green := 0x00ff00,
      blue := 0x0000ff,
      lineSegments := 2000,
      speed := 1.0,
      maxDeltaTime := 1.0 / 30.0,
      eps := 0.0001)
  }

  /** A wider window never gets a smaller screen class. */
  lemma ScreenWidthMonotone(w1: real, w2: real)
    requires w1 <= w2
    ensures Rank(GetScreenWidth(w1)) <= Rank(GetScreenWidth(w2))
  {
  }

  /** Point sizes 3, 6, 8, 9 grow strictly with the screen class. */
  lemma PointPxStrictlyIncreasing(a: ScreenWidth, b: ScreenWidth)
    requires Rank(a) < Rank(b)
    ensures PointPxForScreen(a) < PointPxForScreen(b)
  {
  }

  /** Hence a wider window never gets smaller points. */
  lemma PointPxMonotoneInWidth(w1: real, w2: real)
    requires w1 <= w2
    ensures PointPxForScreen(GetScreenWidth(w1)) <= PointPxForScreen(GetScreenWidth(w2))
  {
    ScreenWidthMonotone(w1, w2);
    if Rank(GetScreenWidth(w1)) < Rank(GetScreenWidth(w2)) {
      PointPxStrictlyIncreasing(GetScreenWidth(w1), GetScreenWidth(w2));
    }
  }
}
