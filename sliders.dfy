/**
 * The value-holding part of the horizontal slider widget, which both
 * simulations define identically: a value that a reset request or a mouse drag
 * sets, always clamped into the slider's range. Drawing and hit-testing are not
 * modelled.
 */
module Sliders {
  import opened Numerics

  /**
   * The value `_update_value` stores when the mouse is at pixel column
   * `mouseX`, for a track starting at column `x` that is `width` pixels wide.
   * The pixel offset is first clamped to the track, so a drag past either end
   * pins the value to that end of the range.
   */
  function DragValue(x: int, width: int, minVal: real, maxVal: real, mouseX: int): (r: real)
    requires width > 0
    ensures minVal <= maxVal ==> minVal <= r <= maxVal
    ensures mouseX <= x ==> r == minVal
    ensures mouseX >= x + width ==> r == maxVal
  {
    var relX := PixelOffset(x, width, mouseX);
    var frac := relX as real / width as real;
    FractionInUnit(relX, width);
    ScaleWithin(frac, maxVal - minVal);
    minVal + frac * (maxVal - minVal)
  }

  /** `max(0, min(width, mouseX - x))` on integer pixel columns. */
  function PixelOffset(x: int, width: int, mouseX: int): (rel: int)
    requires width > 0
    ensures 0 <= rel <= width
    ensures mouseX <= x ==> rel == 0
    ensures mouseX >= x + width ==> rel == width
    ensures x <= mouseX <= x + width ==> rel == mouseX - x
  {
    var d := mouseX - x;
    var m := if d < width then d else width;
    if m > 0 then m else 0
  }

  lemma FractionInUnit(relX: int, width: int)
    requires width > 0 && 0 <= relX <= width
    ensures 0.0 <= relX as real / width as real <= 1.0
    ensures relX == 0 ==> relX as real / width as real == 0.0
    ensures relX == width ==> relX as real / width as real == 1.0
  {
  }

  lemma ScaleWithin(frac: real, span: real)
    requires 0.0 <= frac <= 1.0
    ensures span >= 0.0 ==> 0.0 <= frac * span <= span
  {
    if span >= 0.0 {
      assert frac * span <= 1.0 * span;
    }
  }

  /** Dragging further right never lowers the value (for an ordered range). */
  lemma DragMonotone(x: int, width: int, minVal: real, maxVal: real, m1: int, m2: int)
    requires width > 0 && minVal <= maxVal && m1 <= m2
    ensures DragValue(x, width, minVal, maxVal, m1) <= DragValue(x, width, minVal, maxVal, m2)
  {
    var r1, r2 := PixelOffset(x, width, m1), PixelOffset(x, width, m2);
    assert r1 <= r2;
    var w := width as real;
    var f1, f2 := r1 as real / w, r2 as real / w;
    assert f2 - f1 == (r2 - r1) as real / w;
    assert f1 <= f2;
    assert f1 * (maxVal - minVal) <= f2 * (maxVal - minVal);
  }

  class Slider {
    /** Left pixel column and pixel width of the track (the widget's rect). */
    const x: int
    const width: int
    const minVal: real
    const maxVal: real
    var value: real

    /** The widget stores its initial value as given, without clamping it. */
    constructor (x: int, width: int, minVal: real, maxVal: real, initial: real)
      requires width > 0
      ensures this.x == x && this.width == width
      ensures this.minVal == minVal && this.maxVal == maxVal
      ensures value == initial
    {
      this.x := x;
      this.width := width;
      this.minVal := minVal;
      this.maxVal := maxVal;
      value := initial;
    }

    /** `reset(v)`: store `v` clamped into `[minVal, maxVal]`. */
    method Reset(v: real)
      modifies this`value
      ensures value == Clamp(minVal, maxVal, v)
      ensures minVal <= maxVal ==> minVal <= value <= maxVal
      ensures v < minVal ==> value == minVal
    {
      value := Max(minVal, Min(maxVal, v));
    }

    /** `_update_value(mouse_x)`: the value under the mouse, pinned to the track. */
    method UpdateValue(mouseX: int)
      requires width > 0
      modifies this`value
      ensures value == DragValue(x, width, minVal, maxVal, mouseX)
      ensures minVal <= maxVal ==> minVal <= value <= maxVal
    {
      var relX := mouseX - x;
      relX := if relX < width then relX else width;
      relX := if relX > 0 then relX else 0;
      value := minVal + (relX as real / width as real) * (maxVal - minVal);
    }
  }
}
