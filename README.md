# Pygame drawing sandbox: input handling, colour picker and bounce step

This project models the state logic of a small pygame drawing sandbox (`main.py`). It covers three parts:

- **the input handler** (`handle_events`). The program keeps module-level state: the user's circles and polygons, the polygon being built, the polygon-creation mode, the alpha mode and the running flag. The handler reacts to one queued event at a time: window close, Escape, `c`, `s`, `p`, Enter and `t` key presses, and left and right mouse presses.
- **the RGB colour picker** (`color_picker_handle_event`, `update_color_picker_with_pos`, `get_picker_color`). It has three sliders in a fixed panel, a drag flag, and the colour it gives to new or recoloured circles.
- **the moving circle's per-frame step** (the circle part of `update`). The circle advances by `velocity * dt * FPS`. Then, on an axis where the circle's edge crosses the window edge, the coordinate is clamped to the edge and that velocity component is negated.

Modules:

- `Geometry`: window constants, `Point`, `Rgba`.
- `Events`: the pygame events the handler distinguishes.
- `Picker`: slider arithmetic, the picker's specification on values (`PickerState`, `AfterPos`, `AfterEvent`, `AfterEvents`, `ColorOf`), and the `ColorPicker` class. The class models the `color_picker` dict that the handlers update in place.
- `Motion`: the per-axis `Bounce`, the `MovingCircle` class (the `moving_circle` dict), and `Trajectory`, a run of frames.
- `Sandbox`: user circles, nearest-circle selection and recolouring, the handler's specification on values (`Scene`, `Step`, and `Run` over a queue), and the `App` class. `App`'s fields are the program's globals. It holds the picker and the moving circle as objects.

Each state-changing method states its whole new state as a value-level function of the old one. The picker's methods use `AfterPos` and `AfterEvent`. The moving circle's `Update` uses `Frame`. `App.HandleEvent` uses `Step`, and `App.HandleEvents` uses `Run`, the fold of `Step` over the queue. `ToggleAlphaTwice` states that the whole state is as before. The `App` invariant `Valid()` holds across every event:

- every committed polygon has at least 3 vertices;
- every circle has a radius in [12,36] and a colour with channels in 0..255;
- the in-progress polygon is empty outside polygon-creation mode.

Behaviour of the code that the model reproduces on purpose:

- The picker sees every event before the shape handling does. A left press inside the picker panel therefore sets a channel first, and then still creates a circle, in the new colour.
- The shape handling tests only `button == 1` for polygon mode. A right press in polygon mode therefore still recolours the nearest circle.
- Mouse presses of any button reach the picker, including the middle button and the wheel. A press inside the panel starts a drag even in the strip below the blue slider, where it sets no channel.
- Nearest-circle ties go to the earliest circle in the list, as Python's `min` keeps its first minimum.
- The slider value is the offset into the track times 255, divided by the track width (220), truncated toward zero, then clamped to 0..255. This is exact integer arithmetic. The code computes it in floating point. For offsets 0..220 the exact quotient is an integer only at multiples of 44, and there the float product rounds back to that same integer. Outside 0..220 the clamp decides. So the two agree for every integer pointer column.

## Model

| member | source | states |
|---|---|---|
| `Picker.TruncDiv` | main.py:126 | Python's `int()` of a quotient truncates toward zero: for a non-negative dividend the result is the floor, for a negative one the ceiling. |
| `Picker.Clamp` | main.py:127 | `max(0, min(255, val))` always lands in 0..255. A negative value becomes 0, a value above 255 becomes 255, and a value already in range is kept. |
| `Picker.SliderValue` | main.py:125-127 | The channel value is in 0..255. It is 0 at or left of the track start and 255 at or right of the track end. In between it is the largest v with v·220 ≤ (px−38)·255. |
| `Picker.SliderValueMonotone` | main.py:125-127 | Moving the pointer to the right never lowers the slider value. |
| `Picker.SliderRow` | main.py:121-124 | A row is selected exactly when 0 ≤ rel_y < 108, and the selected row r satisfies 36r ≤ rel_y < 36(r+1). Offsets 108..120 (row 3) and offsets outside 0..120 select nothing. |
| `Picker.AfterPos` | main.py:116-133 | Only the channel of the row under the pointer changes, and it takes that column's slider value. The other two channels and the drag flag are kept. Nothing changes outside the three bands. Channels stay in 0..255. |
| `Picker.AfterEvent` | main.py:104-113 | A press inside the panel sets `selected` and updates the row's channel. A press outside changes nothing. A release always clears `selected` and keeps the channels. Motion updates a channel only while `selected`. Other events change nothing. Channels stay in 0..255. |
| `Picker.AfterEvents` | main.py:243-269 | The picker's state after a queue of events, each handled in order by `color_picker_handle_event`. Channels stay in 0..255. |
| `Picker.ColorOf` | main.py:136-137 | The picked colour carries the three channels. Its alpha is 200 exactly when alpha mode is on and 255 exactly when it is off. |
| `Picker.ColorPicker.constructor` | main.py:51-58 | The picker starts at (120, 200, 150) and is not being dragged. |
| `Picker.ColorPicker.UpdateWithPos` | main.py:116-133 | The in-place update leaves the picker in state `AfterPos(old state, pos)`. |
| `Picker.ColorPicker.HandleEvent` | main.py:104-113 | The in-place update leaves the picker in state `AfterEvent(old state, event)`. |
| `Motion.Bounce` | main.py:304-318 | A velocity component is kept or negated, never rescaled. An in-bounds coordinate is untouched. In a window at least 60 wide, the result lies in [30, limit−30]. Crossing the low edge clamps to 30 and negates; crossing the high edge clamps to limit−30 and negates. |
| `Motion.TrajectoryBounded` | main.py:297-318 | Over any run of frames with any elapsed times, each velocity component is ± its initial value. After at least one frame the coordinate is inside the window. |
| `Motion.MovingCircle.constructor` | main.py:29-34 | The moving circle starts at (100, 100) with velocity (3.5, 2.7). |
| `Motion.MovingCircle.Update` | main.py:291-318 | For any `dt`: each axis advances by v·dt·60 and then bounces. Afterwards the centre lies in [30, 870] × [30, 620], and each velocity component is unchanged or negated. |
| `Sandbox.FirstNearest` | main.py:287 | The chosen circle minimises the squared distance to the click, and every earlier circle is strictly farther (the first minimum). |
| `Sandbox.Recolor` | main.py:284-288 | The list keeps its length. Exactly the first nearest circle gets the new colour. Every other circle is unchanged, and an empty list stays empty. |
| `Sandbox.KeyStep` | main.py:246-267 | A key press keeps the scene invariant and never touches the picker. Running becomes false exactly on Escape, and alpha flips exactly on `t`. |
| `Sandbox.KeyPhase` | main.py:244-267 | The window-close and key branches keep the scene invariant and leave the picker alone. Running becomes false exactly on quit or Escape, and alpha flips exactly on `t`. |
| `Sandbox.PressStep` | main.py:271-288 | The mouse-press branch keeps the scene invariant and changes only the shapes: the picker, running flag and alpha mode stay as they were. |
| `Sandbox.Step` | main.py:243-288 | One pass of the loop body on values. It keeps the scene invariant. Running becomes false exactly on quit or Escape. The picker moves as `AfterEvent` says, whatever the rest of the scene holds. `t` flips alpha and nothing else does. |
| `Sandbox.StepEffects` | main.py:246-288 | What one event does to the shapes. `c` empties circles and polygons. `p` flips the mode and discards the in-progress polygon when turning it off. Enter with the mode on and at least 3 vertices commits that polygon and leaves the mode; otherwise it changes nothing. A left press appends a vertex in polygon mode and otherwise appends one circle in the picker's new colour. A right press recolours as `Recolor` says. Any other event leaves the shapes alone. |
| `Sandbox.RunKeepsValid` | main.py:243-288 | Draining any queue keeps the scene invariant. |
| `Sandbox.RunRunning` | main.py:243-245 | After a queue the program is running exactly when it was running before and no event was a window close or Escape. |
| `Sandbox.RunPicker` | main.py:243-269 | The picker's state after a queue is `AfterEvents` of the events alone, independent of shapes, modes and drawn radii. |
| `Sandbox.App.constructor` | main.py:28-67 | The globals start empty, with polygon mode off, alpha on and running on. The invariant holds. |
| `Sandbox.App.HandleEvent` | main.py:243-288 | The new state of the globals is `Step` of the old state. One event keeps the invariant. The picker moves as `AfterEvent` says. Running becomes false exactly on quit or Escape. `t` flips alpha. `c` empties circles and polygons and keeps everything else. `p` flips the mode, discarding the in-progress polygon when turning it off. Enter with the mode on and at least 3 vertices appends exactly that polygon, empties the in-progress list and leaves the mode; otherwise it changes nothing. A left press appends the point in polygon mode, or else exactly one circle at the click with the drawn radius and the picker's new colour. A right press recolours as `Recolor` says. |
| `Sandbox.App.HandleKey` | main.py:244-267 | The window-close and key branches leave the globals in state `KeyPhase` of the old state. |
| `Sandbox.App.HandlePress` | main.py:271-288 | The mouse-press branch leaves the globals in state `PressStep` of the old state. It appends a vertex, appends a circle, or recolours the first nearest circle. |
| `Sandbox.App.HandleEvents` | main.py:240-288 | Draining the queue leaves the globals in state `Run` of the old state: `Step` applied to each event in order, with that event's drawn radius. The invariant holds afterwards. Running ends false exactly when it was false already or some event was a quit or Escape. The picker ends in `AfterEvents` of the old picker state. |
| `Sandbox.ToggleAlphaTwice` | main.py:266-267 | Pressing `t` twice restores the alpha mode and the colour new circles get, and leaves the shapes alone. The whole state of the globals, running flag and picker included, is as before. |

## Left out

- Drawing is not modelled: `draw_shapes`, `draw_color_picker`, the `utils.py` drawing wrappers, fonts, text and display setup. They only render and change no modelled state.
- `save_screenshot` is not modelled. It is file-system I/O with a timestamp; in the model the `s` key changes no state. Its `mkdir` of the `screenshots` folder (utils.py:45) sits outside its `try`, so when that fails (for instance `screenshots` exists as a regular file, or the directory is read-only) the exception leaves `handle_events` and `main` and ends the program, and the rest of the queue is never handled. The model does not capture that: `Run` and `App.HandleEvents` handle every event, and only a window close or Escape stops the program.
- `random_color` is not modelled. It is never called.
- `random.randint(12, 36)` is not modelled as randomness. `App.HandleEvent` takes the drawn radius as a parameter of the subset type `Radius` (12..36). `App.HandleEvents` and `Run` take a sequence of drawn radii, one per event.
- The main loop's wall-clock timing and `clock.tick` are not modelled. `dt` is a parameter of `MovingCircle.Update`, and `Trajectory` takes the sequence of frame times.
- The ellipse's movement is not modelled. It adds float increments to a `pygame.Rect`, which truncates them to integers in a way outside this model. Its rule is to negate a velocity component when an edge is outside the window, without moving the rectangle back.
- The static pentagon, the background colour and the moving circle's colour are not modelled. They are only drawn.
- The picker's `active` entry is not modelled. It is initialised and never read or written.
- Pointer positions are modelled as integers, which is what pygame reports. Floating-point rounding of the moving circle's position is not modelled: positions and velocities are exact reals.
- User circles are modelled as values in a sequence rather than as shared dicts. Each dict is referenced only from the `circles` list, so recolouring one in place is the same as replacing that element.
