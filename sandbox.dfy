/**
 * The scene and its input handler: the user's circles and polygons, the
 * polygon-creation and alpha modes, the running flag, and the reaction to one
 * event at a time.
 */
module Sandbox {
  import opened Geometry
  import opened Events
  import opened Picker
  import opened Motion

  /** random.randint(12, 36): a user circle's radius (main.py:280). */
  const MIN_RADIUS: int := 12
  const MAX_RADIUS: int := 36
  type Radius = r: int | MIN_RADIUS <= r <= MAX_RADIUS witness MIN_RADIUS

  /** A user-placed circle: centre, radius and colour. */
  datatype Circle = Circle(pos: Point, radius: int, color: Rgba)

  predicate ValidCircle(c: Circle) {
    MIN_RADIUS <= c.radius <= MAX_RADIUS && ValidRgba(c.color)
  }

  /** The key that nearest-circle selection minimises. */
  function SqDist(c: Circle, at: Point): int {
    (c.pos.x - at.x) * (c.pos.x - at.x) + (c.pos.y - at.y) * (c.pos.y - at.y)
  }

  /** Circle i is at least as close as every circle, and strictly closer than every earlier one. */
  predicate IsFirstNearest(cs: seq<Circle>, at: Point, i: int) {
    0 <= i < |cs| &&
    (forall j :: 0 <= j < |cs| ==> SqDist(cs[i], at) <= SqDist(cs[j], at)) &&
    (forall j :: 0 <= j < i ==> SqDist(cs[i], at) < SqDist(cs[j], at))
  }

  /**
   * Python's min(circles, key=...) as an index: a left-to-right scan that
   * replaces the best so far only on a strictly smaller key.
   */
  function FirstNearest(cs: seq<Circle>, at: Point): (k: nat)
    requires |cs| > 0
    ensures IsFirstNearest(cs, at, k)
    decreases |cs|
  {
    if |cs| == 1 then 0
    else
      var k := FirstNearest(cs[..|cs| - 1], at);
      if SqDist(cs[|cs| - 1], at) < SqDist(cs[k], at) then |cs| - 1 else k
  }

  /**
   * The right-click recolouring: the first nearest circle takes the colour,
   * every other circle is kept as it was, and an empty list stays empty.
   */
  function Recolor(cs: seq<Circle>, at: Point, color: Rgba): (ds: seq<Circle>)
    ensures |ds| == |cs|
    ensures cs != [] ==> ds[FirstNearest(cs, at)] == cs[FirstNearest(cs, at)].(color := color)
    ensures forall i :: 0 <= i < |cs| && (cs == [] || i != FirstNearest(cs, at)) ==> ds[i] == cs[i]
  {
    if cs == [] then cs
    else
      var k := FirstNearest(cs, at);
      cs[k := cs[k].(color := color)]
  }

  /** The values of the globals the input handler reads and writes, the picker as its state. */
  datatype Scene = Scene(
    circles: seq<Circle>,
    polygons: seq<seq<Point>>,
    currentPolygon: seq<Point>,
    isCreatingPolygon: bool,
    useAlpha: bool,
    running: bool,
    picker: PickerState)

  /**
   * Every committed polygon has at least three vertices, every circle has a
   * drawn radius and a picked colour, the picker's channels are bytes, and an
   * in-progress polygon exists only in polygon-creation mode.
   */
  predicate ValidScene(s: Scene) {
    ValidPicker(s.picker) &&
    (forall i :: 0 <= i < |s.polygons| ==> |s.polygons[i]| >= 3) &&
    (forall i :: 0 <= i < |s.circles| ==> ValidCircle(s.circles[i])) &&
    (!s.isCreatingPolygon ==> s.currentPolygon == [])
  }

  /** The key branch of the loop body in handle_events. */
  function KeyStep(s: Scene, k: Key): (t: Scene)
    ensures ValidScene(s) ==> ValidScene(t)
    ensures t.picker == s.picker
    ensures t.running == (s.running && k != Escape)
    ensures t.useAlpha == (s.useAlpha != (k == KeyT))
  {
    match k
    case Escape => s.(running := false)
    case KeyC => s.(circles := [], polygons := [])
    case KeyS => s
    case KeyP =>
      if s.isCreatingPolygon then s.(isCreatingPolygon := false, currentPolygon := [])
      else s.(isCreatingPolygon := true)
    case Return =>
      if s.isCreatingPolygon && |s.currentPolygon| >= 3 then
        s.(polygons := s.polygons + [s.currentPolygon], currentPolygon := [], isCreatingPolygon := false)
      else s
    case KeyT => s.(useAlpha := !s.useAlpha)
    case OtherKey(_) => s
  }

  /** The part of the loop body that handles window close and key presses. */
  function KeyPhase(s: Scene, e: Event): (t: Scene)
    ensures ValidScene(s) ==> ValidScene(t)
    ensures t.picker == s.picker
    ensures t.running == (s.running && !Stops(e))
    ensures t.useAlpha == (s.useAlpha != (e == KeyDown(KeyT)))
  {
    match e
    case Quit => s.(running := false)
    case KeyDown(k) => KeyStep(s, k)
    case _ => s
  }

  /** The mouse-press branch of the loop body, after the picker has seen the press. */
  function PressStep(s: Scene, pos: Point, button: int, radius: Radius): (t: Scene)
    ensures ValidScene(s) ==> ValidScene(t)
    ensures t.picker == s.picker && t.running == s.running && t.useAlpha == s.useAlpha
  {
    if s.isCreatingPolygon && button == LEFT_BUTTON then
      s.(currentPolygon := s.currentPolygon + [pos])
    else if button == LEFT_BUTTON then
      s.(circles := s.circles + [Circle(pos, radius, ColorOf(s.picker, s.useAlpha))])
    else if button == RIGHT_BUTTON then
      s.(circles := Recolor(s.circles, pos, ColorOf(s.picker, s.useAlpha)))
    else s
  }

  /**
   * One pass of the loop in handle_events on values: keys first, then the
   * picker, then mouse presses. It keeps the scene invariant, stops the
   * program exactly on quit or Escape, and moves the picker as AfterEvent says
   * whatever the rest of the scene holds.
   */
  function Step(s: Scene, e: Event, radius: Radius): (t: Scene)
    ensures ValidScene(s) ==> ValidScene(t)
    ensures t.running == (s.running && !Stops(e))
    ensures t.picker == AfterEvent(s.picker, e)
    ensures t.useAlpha == (s.useAlpha != (e == KeyDown(KeyT)))
  {
    var keyed := KeyPhase(s, e);
    var picked := keyed.(picker := AfterEvent(keyed.picker, e));
    if e.MouseDown? then PressStep(picked, e.pos, e.button, radius) else picked
  }

  /** What one event does to each part of the scene. */
  lemma StepEffects(s: Scene, e: Event, radius: Radius)
    ensures var t := Step(s, e, radius);
      (e == KeyDown(KeyC) ==>
         t.circles == [] && t.polygons == [] &&
         t.currentPolygon == s.currentPolygon && t.isCreatingPolygon == s.isCreatingPolygon) &&
      (e == KeyDown(KeyP) ==>
         t.isCreatingPolygon == !s.isCreatingPolygon &&
         t.circles == s.circles && t.polygons == s.polygons &&
         t.currentPolygon == (if t.isCreatingPolygon then s.currentPolygon else [])) &&
      (e == KeyDown(Return) && s.isCreatingPolygon && |s.currentPolygon| >= 3 ==>
         t.polygons == s.polygons + [s.currentPolygon] &&
         t.currentPolygon == [] && !t.isCreatingPolygon && t.circles == s.circles) &&
      (e == KeyDown(Return) && !(s.isCreatingPolygon && |s.currentPolygon| >= 3) ==>
         ShapesOf(t) == ShapesOf(s)) &&
      (e.MouseDown? ==>
         t.polygons == s.polygons && t.isCreatingPolygon == s.isCreatingPolygon) &&
      (e.MouseDown? && e.button == LEFT_BUTTON && s.isCreatingPolygon ==>
         t.currentPolygon == s.currentPolygon + [e.pos] && t.circles == s.circles) &&
      (e.MouseDown? && e.button == LEFT_BUTTON && !s.isCreatingPolygon ==>
         t.currentPolygon == s.currentPolygon &&
         t.circles == s.circles + [Circle(e.pos, radius, ColorOf(t.picker, t.useAlpha))]) &&
      (e.MouseDown? && e.button == RIGHT_BUTTON ==>
         t.currentPolygon == s.currentPolygon &&
         t.circles == Recolor(s.circles, e.pos, ColorOf(t.picker, t.useAlpha))) &&
      (e.MouseDown? && e.button != LEFT_BUTTON && e.button != RIGHT_BUTTON ==>
         ShapesOf(t) == ShapesOf(s)) &&
      (!e.MouseDown? && e != KeyDown(KeyC) && e != KeyDown(KeyP) && e != KeyDown(Return) ==>
         ShapesOf(t) == ShapesOf(s))
  {
  }

  /** The shape lists and the polygon mode of a scene. */
  function ShapesOf(s: Scene): (seq<Circle>, seq<seq<Point>>, seq<Point>, bool) {
    (s.circles, s.polygons, s.currentPolygon, s.isCreatingPolygon)
  }

  /**
   * The whole drained queue: events handled in arrival order, radii[i] being
   * the value random.randint(12, 36) gives while handling events[i].
   */
  function Run(s: Scene, events: seq<Event>, radii: seq<Radius>): Scene
    requires |radii| == |events|
    decreases |events|
  {
    if events == [] then s
    else Step(Run(s, events[..|events| - 1], radii[..|radii| - 1]), events[|events| - 1], radii[|radii| - 1])
  }

  /** Draining any queue keeps the scene invariant. */
  lemma {:induction false} RunKeepsValid(s: Scene, events: seq<Event>, radii: seq<Radius>)
    requires ValidScene(s) && |radii| == |events|
    ensures ValidScene(Run(s, events, radii))
    decreases |events|
  {
    if events != [] {
      RunKeepsValid(s, events[..|events| - 1], radii[..|radii| - 1]);
    }
  }

  /** The program stops after a queue exactly when it was stopped or the queue held a quit or Escape. */
  lemma {:induction false} RunRunning(s: Scene, events: seq<Event>, radii: seq<Radius>)
    requires |radii| == |events|
    ensures Run(s, events, radii).running == (s.running && forall i :: 0 <= i < |events| ==> !Stops(events[i]))
    decreases |events|
  {
    if events != [] {
      var n := |events| - 1;
      RunRunning(s, events[..n], radii[..n]);
      var prev := Run(s, events[..n], radii[..n]);
      assert Run(s, events, radii) == Step(prev, events[n], radii[n]);
      assert forall i :: 0 <= i < n ==> events[..n][i] == events[i];
    }
  }

  /** The picker's state after a queue depends only on the events, never on the shapes or modes. */
  lemma {:induction false} RunPicker(s: Scene, events: seq<Event>, radii: seq<Radius>)
    requires |radii| == |events|
    ensures Run(s, events, radii).picker == AfterEvents(s.picker, events)
    decreases |events|
  {
    if events != [] {
      RunPicker(s, events[..|events| - 1], radii[..|radii| - 1]);
    }
  }

  /** The module-level state of the program: the scene, the modes and the two dict objects. */
  class App {
    var circles: seq<Circle>
    var polygons: seq<seq<Point>>
    var currentPolygon: seq<Point>
    var isCreatingPolygon: bool
    var useAlpha: bool
    var running: bool
    const picker: ColorPicker
    const movingCircle: MovingCircle

    /** The current values of the globals. */
    function Snapshot(): Scene
      reads this, picker
    {
      Scene(circles, polygons, currentPolygon, isCreatingPolygon, useAlpha, running, picker.State())
    }

    ghost predicate Valid()
      reads this, picker
    {
      ValidScene(Snapshot())
    }

    /** get_picker_color(color_picker), reading the global alpha flag. */
    function PickerColor(): Rgba
      reads this, picker
    {
      ColorOf(picker.State(), useAlpha)
    }

    /** The shape lists and the polygon mode, the part of the state shapes handling touches. */
    ghost function Shapes(): (seq<Circle>, seq<seq<Point>>, seq<Point>, bool)
      reads this, picker
    {
      ShapesOf(Snapshot())
    }

    /** The initial values of the globals (main.py:29-67). */
    constructor ()
      ensures Valid() && fresh(picker) && fresh(movingCircle)
      ensures circles == [] && polygons == [] && currentPolygon == []
      ensures !isCreatingPolygon && useAlpha && running
      ensures picker.State() == PickerState(120, 200, 150, false)
      ensures movingCircle.x == 100.0 && movingCircle.y == 100.0
      ensures movingCircle.vx == 3.5 && movingCircle.vy == 2.7
    {
      circles := [];
      polygons := [];
      currentPolygon := [];
      isCreatingPolygon := false;
      useAlpha := true;
      running := true;
      picker := new ColorPicker();
      movingCircle := new MovingCircle();
    }

    /**
     * The body of the loop in handle_events for one event, with radius the
     * value random.randint(12, 36) gives if a circle is created. Keys are
     * handled first, then the picker sees the event, then mouse presses touch
     * the shapes: so a press inside the panel both sets a channel and creates a
     * circle in the new colour, and a right press recolours in polygon mode too.
     */
    method HandleEvent(e: Event, radius: Radius)
      requires Valid()
      modifies this, picker
      ensures Valid()
      ensures Snapshot() == Step(old(Snapshot()), e, radius)
      ensures picker.State() == AfterEvent(old(picker.State()), e)
      ensures running == (old(running) && !Stops(e))
      ensures useAlpha == (old(useAlpha) != (e == KeyDown(KeyT)))
      ensures e == KeyDown(KeyC) ==>
                circles == [] && polygons == [] &&
                currentPolygon == old(currentPolygon) && isCreatingPolygon == old(isCreatingPolygon)
      ensures e == KeyDown(KeyP) ==>
                isCreatingPolygon == !old(isCreatingPolygon) &&
                circles == old(circles) && polygons == old(polygons) &&
                currentPolygon == (if isCreatingPolygon then old(currentPolygon) else [])
      ensures e == KeyDown(Return) && old(isCreatingPolygon) && |old(currentPolygon)| >= 3 ==>
                polygons == old(polygons) + [old(currentPolygon)] &&
                currentPolygon == [] && !isCreatingPolygon && circles == old(circles)
      ensures e == KeyDown(Return) && !(old(isCreatingPolygon) && |old(currentPolygon)| >= 3) ==>
                Shapes() == old(Shapes())
      ensures e.MouseDown? ==>
                polygons == old(polygons) && isCreatingPolygon == old(isCreatingPolygon)
      ensures e.MouseDown? && e.button == LEFT_BUTTON && old(isCreatingPolygon) ==>
                currentPolygon == old(currentPolygon) + [e.pos] && circles == old(circles)
      ensures e.MouseDown? && e.button == LEFT_BUTTON && !old(isCreatingPolygon) ==>
                currentPolygon == old(currentPolygon) &&
                circles == old(circles) + [Circle(e.pos, radius, PickerColor())]
      ensures e.MouseDown? && e.button == RIGHT_BUTTON ==>
                currentPolygon == old(currentPolygon) &&
                circles == Recolor(old(circles), e.pos, PickerColor())
      ensures e.MouseDown? && e.button != LEFT_BUTTON && e.button != RIGHT_BUTTON ==>
                Shapes() == old(Shapes())
      ensures !e.MouseDown? && e != KeyDown(KeyC) && e != KeyDown(KeyP) && e != KeyDown(Return) ==>
                Shapes() == old(Shapes())
    {
      ghost var s0 := Snapshot();
      HandleKey(e);
      picker.HandleEvent(e);
      if e.MouseDown? {
        HandlePress(e.pos, e.button, radius);
      }
      StepEffects(s0, e, radius);
    }

    /** The window-close and key branches of the loop body. */
    method HandleKey(e: Event)
      modifies this
      ensures Snapshot() == KeyPhase(old(Snapshot()), e)
    {
      match e {
        case Quit =>
          running := false;
        case KeyDown(k) =>
          match k {
            case Escape =>
              running := false;
            case KeyC =>
              circles := [];
              polygons := [];
            case KeyS =>
              // save_screenshot writes a file; no modelled state changes.
            case KeyP =>
              isCreatingPolygon := !isCreatingPolygon;
              if !isCreatingPolygon {
                currentPolygon := [];
              }
            case Return =>
              if isCreatingPolygon && |currentPolygon| >= 3 {
                polygons := polygons + [currentPolygon];
                currentPolygon := [];
                isCreatingPolygon := false;
              }
            case KeyT =>
              useAlpha := !useAlpha;
            case OtherKey(_) =>
          }
        case _ =>
      }
    }

    /** The mouse-press branch of the loop body, run after the picker has seen the press. */
    method HandlePress(pos: Point, button: int, radius: Radius)
      modifies this
      ensures Snapshot() == PressStep(old(Snapshot()), pos, button, radius)
    {
      if isCreatingPolygon && button == LEFT_BUTTON {
        currentPolygon := currentPolygon + [pos];
      } else {
        if button == LEFT_BUTTON {
          circles := circles + [Circle(pos, radius, PickerColor())];
        } else if button == RIGHT_BUTTON {
          if |circles| > 0 {
            var nearest := FirstNearest(circles, pos);
            circles := circles[nearest := circles[nearest].(color := PickerColor())];
          }
        }
      }
    }

    /**
     * handle_events: drain the queue in arrival order, radii[i] being the
     * radius drawn while handling events[i]. The new state is the run of Step
     * over the queue; hence the invariant holds, the program stops exactly when
     * some event was a window close or Escape (or it had stopped already), and
     * the picker ends where the events alone take it.
     */
    method HandleEvents(events: seq<Event>, radii: seq<Radius>)
      requires Valid()
      requires |radii| == |events|
      modifies this, picker
      ensures Snapshot() == Run(old(Snapshot()), events, radii)
      ensures Valid()
      ensures running == (old(running) && forall i :: 0 <= i < |events| ==> !Stops(events[i]))
      ensures picker.State() == AfterEvents(old(picker.State()), events)
    {
      ghost var start := Snapshot();
      for n := 0 to |events|
        invariant Valid()
        invariant Snapshot() == Run(start, events[..n], radii[..n])
      {
        assert events[..n + 1][..n] == events[..n];
        assert radii[..n + 1][..n] == radii[..n];
        HandleEvent(events[n], radii[n]);
      }
      assert events[..|events|] == events;
      assert radii[..|radii|] == radii;
      RunRunning(start, events, radii);
      RunPicker(start, events, radii);
    }
  }

  /**
   * Pressing t twice gives back the alpha mode and hence the colour new
   * circles get; no other global changes either.
   */
  method ToggleAlphaTwice(app: App)
    requires app.Valid()
    modifies app, app.picker
    ensures app.useAlpha == old(app.useAlpha)
    ensures app.PickerColor() == old(app.PickerColor())
    ensures app.Shapes() == old(app.Shapes())
    ensures app.Snapshot() == old(app.Snapshot())
  {
    app.HandleEvent(KeyDown(KeyT), MIN_RADIUS);
    app.HandleEvent(KeyDown(KeyT), MIN_RADIUS);
  }
}
