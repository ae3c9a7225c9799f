/**
 * The RGB slider panel: its geometry, the mapping from a pointer position to a
 * channel value, the drag state machine, and the colour it hands out.
 */
module Picker {
  import opened Geometry
  import opened Events

  /** The panel rectangle, pygame.Rect(10, HEIGHT - 130, 260, 120) (main.py:52). */
  const PANEL_X: int := 10
  const PANEL_Y: int := HEIGHT - 130
  const PANEL_W: int := 260
  const PANEL_H: int := 120
  /** Each slider occupies one band of this height, R on top, then G, then B. */
  const ROW_HEIGHT: int := 36
  /** The slider track starts 28 pixels into the panel and is 40 pixels narrower. */
  const TRACK_X: int := PANEL_X + 28
  const TRACK_W: int := PANEL_W - 40
  /** The alpha of a picked colour with and without alpha mode. */
  const TRANSLUCENT: int := 200
  const OPAQUE: int := 255

  datatype Option<T> = None | Some(value: T)

  datatype Channel = Red | Green | Blue

  /** The band a channel's slider occupies, counted from the top of the panel. */
  function Row(c: Channel): nat {
    match c
    case Red => 0
    case Green => 1
    case Blue => 2
  }

  /** The picker's observable state: three channel values and the drag flag. */
  datatype PickerState = PickerState(r: int, g: int, b: int, selected: bool) {

    function Get(c: Channel): int {
      match c
      case Red => r
      case Green => g
      case Blue => b
    }

    function Set(c: Channel, v: int): PickerState {
      match c
      case Red => this.(r := v)
      case Green => this.(g := v)
      case Blue => this.(b := v)
    }

    function Rgb(): (int, int, int) {
      (r, g, b)
    }
  }

  predicate ValidPicker(p: PickerState) {
    IsByte(p.r) && IsByte(p.g) && IsByte(p.b)
  }

  /** pygame's Rect.collidepoint: the right and bottom edges are outside. */
  predicate InPanel(pos: Point) {
    PANEL_X <= pos.x < PANEL_X + PANEL_W && PANEL_Y <= pos.y < PANEL_Y + PANEL_H
  }

  /** Euclidean division of a natural number brackets it between multiples of the divisor. */
  lemma DivBounds(n: int, b: int)
    requires n >= 0 && b > 0
    ensures 0 <= n / b
    ensures (n / b) * b <= n < (n / b) * b + b
  {
  }

  lemma NegMul(m: int, b: int)
    ensures (-m) * b == -(m * b)
  {
  }

  /** Python's int() applied to a quotient: division that truncates toward zero. */
  function TruncDiv(a: int, b: int): (q: int)
    requires b > 0
    ensures a >= 0 ==> 0 <= q && q * b <= a < q * b + b
    ensures a < 0 ==> q <= 0 && q * b - b < a <= q * b
  {
    if a >= 0 then
      DivBounds(a, b);
      a / b
    else
      var m := (-a) / b;
      DivBounds(-a, b);
      NegMul(m, b);
      -m
  }

  function Clamp(v: int): (c: int)
    ensures IsByte(c)
    ensures v < 0 ==> c == 0
    ensures v > 255 ==> c == 255
    ensures IsByte(v) ==> c == v
  {
    if v < 0 then 0 else if v > 255 then 255 else v
  }

  /**
   * The channel value for a pointer at column px: the offset into the track
   * scaled from the track width to 0..255, truncated, then clamped.
   */
  function SliderValue(px: int): (v: int)
    ensures IsByte(v)
    ensures px <= TRACK_X ==> v == 0
    ensures px >= TRACK_X + TRACK_W ==> v == 255
    ensures TRACK_X <= px <= TRACK_X + TRACK_W ==>
              v * TRACK_W <= (px - TRACK_X) * 255 < (v + 1) * TRACK_W
  {
    Clamp(TruncDiv((px - TRACK_X) * 255, TRACK_W))
  }

  /** Dragging the pointer to the right never lowers the value. */
  lemma SliderValueMonotone(px: int, qx: int)
    requires px <= qx
    ensures SliderValue(px) <= SliderValue(qx)
  {
  }

  /**
   * The slider under a pointer whose offset below the panel top is relY. Only
   * 0 <= relY <= PANEL_H is considered, and of that only rows 0..2; the strip
   * below the blue band (row 3) selects nothing.
   */
  function SliderRow(relY: int): (c: Option<Channel>)
    ensures c.Some? <==> 0 <= relY < 3 * ROW_HEIGHT
    ensures c.Some? ==> Row(c.value) * ROW_HEIGHT <= relY < (Row(c.value) + 1) * ROW_HEIGHT
  {
    if 0 <= relY <= PANEL_H then
      var row := relY / ROW_HEIGHT;
      if row == 0 then Some(Red)
      else if row == 1 then Some(Green)
      else if row == 2 then Some(Blue)
      else None
    else None
  }

  /**
   * The effect of update_color_picker_with_pos: the channel of the row under
   * the pointer takes the slider value of its column; nothing else changes, and
   * nothing at all changes outside the three bands.
   */
  function AfterPos(p: PickerState, pos: Point): (q: PickerState)
    ensures q.selected == p.selected
    ensures ValidPicker(p) ==> ValidPicker(q)
    ensures SliderRow(pos.y - PANEL_Y).None? ==> q == p
    ensures SliderRow(pos.y - PANEL_Y).Some? ==>
              var c := SliderRow(pos.y - PANEL_Y).value;
              q.Get(c) == SliderValue(pos.x) &&
              forall d: Channel :: d != c ==> q.Get(d) == p.Get(d)
  {
    match SliderRow(pos.y - PANEL_Y)
    case None => p
    case Some(c) => p.Set(c, SliderValue(pos.x))
  }

  /**
   * The effect of color_picker_handle_event: a press inside the panel starts a
   * drag and sets a channel, any release ends the drag, motion sets a channel
   * only during a drag, and everything else leaves the picker alone.
   */
  function AfterEvent(p: PickerState, e: Event): (q: PickerState)
    ensures ValidPicker(p) ==> ValidPicker(q)
    ensures e.MouseDown? && InPanel(e.pos) ==> q.selected && q.Rgb() == AfterPos(p, e.pos).Rgb()
    ensures e.MouseDown? && !InPanel(e.pos) ==> q == p
    ensures e.MouseUp? ==> !q.selected && q.Rgb() == p.Rgb()
    ensures e.MouseMotion? ==> q.selected == p.selected
    ensures e.MouseMotion? && p.selected ==> q.Rgb() == AfterPos(p, e.pos).Rgb()
    ensures e.MouseMotion? && !p.selected ==> q == p
    ensures !(e.MouseDown? || e.MouseUp? || e.MouseMotion?) ==> q == p
  {
    match e
    case MouseDown(pos, _) => if InPanel(pos) then AfterPos(p.(selected := true), pos) else p
    case MouseUp(_, _) => p.(selected := false)
    case MouseMotion(pos) => if p.selected then AfterPos(p, pos) else p
    case _ => p
  }

  /** The picker after a run of events, handled in order. */
  function AfterEvents(p: PickerState, es: seq<Event>): (q: PickerState)
    ensures ValidPicker(p) ==> ValidPicker(q)
    decreases |es|
  {
    if es == [] then p else AfterEvent(AfterEvents(p, es[..|es| - 1]), es[|es| - 1])
  }

  /** get_picker_color: the three channels with alpha 200 in alpha mode, 255 otherwise. */
  function ColorOf(p: PickerState, useAlpha: bool): (c: Rgba)
    ensures (c.r, c.g, c.b) == p.Rgb()
    ensures c.a == TRANSLUCENT <==> useAlpha
    ensures c.a == OPAQUE <==> !useAlpha
    ensures ValidPicker(p) ==> ValidRgba(c)
  {
    Rgba(p.r, p.g, p.b, if useAlpha then TRANSLUCENT else OPAQUE)
  }

  /** The color_picker dict, whose entries the handlers assign in place. */
  class ColorPicker {
    var r: int
    var g: int
    var b: int
    var selected: bool

    function State(): PickerState
      reads this
    {
      PickerState(r, g, b, selected)
    }

    constructor ()
      ensures ValidPicker(State())
      ensures State() == PickerState(120, 200, 150, false)
    {
      r, g, b, selected := 120, 200, 150, false;
    }

    /** update_color_picker_with_pos. */
    method UpdateWithPos(pos: Point)
      modifies this
      ensures State() == AfterPos(old(State()), pos)
    {
      var relY := pos.y - PANEL_Y;
      if 0 <= relY <= PANEL_H {
        var row := relY / ROW_HEIGHT;
        if 0 <= row <= 2 {
          var val := TruncDiv((pos.x - TRACK_X) * 255, TRACK_W);
          val := Clamp(val);
          if row == 0 {
            r := val;
          } else if row == 1 {
            g := val;
          } else if row == 2 {
            b := val;
          }
        }
      }
    }

    /** color_picker_handle_event. */
    method HandleEvent(e: Event)
      modifies this
      ensures State() == AfterEvent(old(State()), e)
    {
      if e.MouseDown? {
        if InPanel(e.pos) {
          selected := true;
          UpdateWithPos(e.pos);
        }
      } else if e.MouseUp? {
        selected := false;
      } else if e.MouseMotion? {
        if selected {
          UpdateWithPos(e.pos);
        }
      }
    }
  }
}
