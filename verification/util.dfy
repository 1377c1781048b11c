// Numeric helpers shared by the entities: the clamp used by every colour
// computation, and the two palettes a bird or a trail marker is tinted with.
module Util {

  /** Red, green and blue channels of a fill colour. */
  datatype Rgb = Rgb(r: real, g: real, b: real)

  predicate InByteRange(c: Rgb) {
    0.0 <= c.r <= 255.0 && 0.0 <= c.g <= 255.0 && 0.0 <= c.b <= 255.0
  }

  /** Math.min(Math.max(val, lo), hi): never above hi, never below lo when the
      bounds are ordered, and the identity on values already inside them. */
  function Clamp(val: real, lo: real, hi: real): (r: real)
    ensures r <= hi
    ensures lo <= hi ==> lo <= r
    ensures lo <= val <= hi ==> r == val
    ensures r == val || r == lo || r == hi
    ensures val < lo <= hi ==> r == lo
    ensures val > hi || lo > hi ==> r == hi
  {
    var atLeast := if val > lo then val else lo;
    if atLeast < hi then atLeast else hi
  }

  /** The player-indexed palette used when a bird or a trail marker is drawn:
      player 1 fades from red to blue, player 2 from green to blue, as the
      whole part of the intensity grows; the remaining channel follows x. */
  function PlayerTint(n: int, intensity: real, x: real): (c: Rgb)
    requires n == 1 || n == 2
    ensures InByteRange(c)
    ensures x >= 100.0 ==> (if n == 1 then c.g else c.r) == 255.0
    ensures intensity.Floor <= 0 ==> c.b == 0.0
  {
    var cInt := intensity.Floor;
    var fading := Clamp(255.0 - (cInt * 35) as real, 0.0, 255.0);
    var lane := Clamp(255.0 - 200.0 + 2.0 * x, 0.0, 255.0);
    var rising := Clamp((cInt * 35) as real, 0.0, 255.0);
    if n == 1 then Rgb(fading, lane, rising) else Rgb(lane, fading, rising)
  }

  /** The palette computed by drawR: red rises and blue fades with intensity. */
  function DrawRTint(intensity: real, x: real): (c: Rgb)
    ensures InByteRange(c)
    ensures intensity.Floor <= 0 ==> c.r == 0.0 && c.b == 255.0
    ensures x >= 100.0 ==> c.g == 255.0
  {
    var cInt := intensity.Floor;
    Rgb(Clamp((cInt * 35) as real, 0.0, 255.0),
        Clamp(255.0 - 200.0 + 2.0 * x, 0.0, 255.0),
        Clamp(255.0 - (cInt * 35) as real, 0.0, 255.0))
  }
}
