# Surround panner: listener-position interaction state

A model of the `SurroundPanner` web component. The component shows a circular
canvas with a marker for the listener. Its state is three fields:

- the marker position `x`, `y` in canvas pixels, both starting at 195;
- the lock flag `on`, starting `false`;
- the last gain `response`, five channels `l, r, c, ls, rs`, all 0 at start.

Three handlers change the state:

- a click on the marker flips the lock;
- a pointer move over the canvas moves the marker to the pointer, but only while
  locked, and then asks the gain service about the new position;
- a key press on the marker clears the lock. The arrow keys and the lower-case
  vi keys `h j k l` nudge the marker by 1 pixel, or by 10 when the shift flag of
  the event is set. The handler then always asks the gain service, even for a
  key that does not nudge. Key names are compared case-sensitively, so with
  shift held the browser reports `H J K L`, and those do not nudge
  (`ShiftedViKeysDoNotNudge`). The 10-pixel step therefore reaches the vi keys
  only under Caps Lock. The marker is a button, and a button also receives
  clicks, so a key press followed by a click leaves it locked
  (`KeyThenClickLocks`).

The model has two modules:

- `Listener` (listener.dfy) holds the state machine as values. `Panel` is
  `(x, y, on)`. `Event` is a click, a pointer move or a key press. `Handle` gives
  the effect of one event, and `Run` the effect of a sequence of events. Both
  also return the gain queries sent, each the `(x, y)` pixel pair of the request.
- `Panner` (surround_panner.dfy) holds the class `SurroundPanner`. Its fields
  are updated in place by its handlers. Each handler is proved against
  `Listener.Handle`. The network call is replaced by a ghost log `queries`.

Nudges are not clamped, so the marker can leave the 400-pixel canvas
(`KeysLeaveCanvas`). The gain request carries raw pixel coordinates, not
coordinates normalised to [-1, 1]. The component has no normalisation, no
rescale on resize, no recentering and no request sequencing, so none is modelled.

## Model

| member | source | states |
|---|---|---|
| Listener.KeyOffset | client/surround-panner.ts:68-87 | a key press moves along one axis only; it moves by the step (10 with shift, 1 without) for the eight arrow/vi keys and by 0 for any other key |
| Listener.PressKey | client/surround-panner.ts:66-87 | after a key press the lock is off; `l`/ArrowRight adds the step to x and `h`/ArrowLeft subtracts it, with y unchanged; `j`/ArrowDown adds the step to y and `k`/ArrowUp subtracts it, with x unchanged; any other key leaves x and y unchanged |
| Listener.Handle | client/surround-panner.ts:54-89 | a click only negates `on`; a pointer move while locked puts the marker exactly at the pointer and keeps the lock; a key press gives the state `PressKey` gives; one event sends at most one query, and none exactly for a click or for a pointer move while unlocked; a query sent carries the position after the update; no query means the position did not change |
| Listener.ShiftedViKeysDoNotNudge | client/surround-panner.ts:66-88 | a shifted press reported as `H`, `J`, `K` or `L` does not move the marker: it clears the lock and sends one query for the unchanged position |
| Listener.KeyThenClickLocks | client/surround-panner.ts:28-31 | a key press on the marker button followed by a click leaves the marker locked, at the position the key press gave, with one query sent |
| Listener.Run | client/surround-panner.ts:44-89 | for any sequence of events: at most one query per event; if no query was sent, the marker is where it started; otherwise the last query sent carries the final position; a sequence ending with a key press ends unlocked |
| Listener.ToggleTwice | client/surround-panner.ts:54-56 | a click flips `on`, keeps the position and sends nothing; two clicks restore the original state |
| Listener.UnlockedMovesIgnored | client/surround-panner.ts:58-64 | while unlocked, any sequence of pointer moves leaves the state unchanged and sends no query |
| Listener.LockedMovesFollow | client/surround-panner.ts:58-63 | while locked, a sequence of pointer moves keeps the lock on and sends one query per move, carrying that move's pointer coordinates; the marker ends exactly at the last pointer position |
| Listener.KeysAccumulate | client/surround-panner.ts:66-89 | a sequence of key presses sends one query per press; it moves the marker by the sum of the key offsets; after at least one press the lock is off |
| Listener.RepeatedPresses | client/surround-panner.ts:66-89 | pressing one key n times moves the marker n times that key's offset on each axis |
| Listener.KeysLeaveCanvas | client/surround-panner.ts:73-85 | nudges are not clamped: from the start position, 20 shift+ArrowLeft presses reach x = -5, and 21 shift+ArrowRight presses reach x = 405, past the 400-pixel canvas |
| Panner.SurroundPanner.constructor | client/surround-panner.ts:6-22 | a new component has x = y = 195, the lock off, all five channel gains 0 and no query sent |
| Panner.SurroundPanner.Send | client/surround-panner.ts:44-46 | sending appends exactly one query, carrying the current (x, y) in pixels |
| Panner.SurroundPanner.ApplyResponse | client/surround-panner.ts:51 | an arriving response replaces the shown gains as a whole |
| Panner.SurroundPanner.Toggle | client/surround-panner.ts:54-56 | only `on` changes and is negated; position, response and query log are untouched |
| Panner.SurroundPanner.HandleMouse | client/surround-panner.ts:58-64 | when locked: x and y become the pointer coordinates and one query for them is logged; when unlocked: nothing changes; in both cases this agrees with `Listener.Handle` |
| Panner.SurroundPanner.HandleKey | client/surround-panner.ts:66-89 | the lock is off afterwards; the position is the one `Listener.PressKey` gives; exactly one query is logged, carrying the updated position |
| Panner.SurroundPanner.Dispatch | client/surround-panner.ts:28-31 | routing a click, pointer move or key press to its handler changes the state and the query log exactly as `Listener.Handle` says |

## Left out

- Rendering: the Lit template and the styles (client/surround-panner.ts:24-42, 91-118) are presentation. The only thing taken from them is which event reaches which handler (`Dispatch`) and the 400-pixel canvas size (`CanvasSize`).
- The HTTP request and JSON decoding in `send`: the model records the query and leaves the network out. The request is not awaited, so responses are applied in arrival order. That ordering is asynchronous behaviour and is not modelled; `ApplyResponse` can be called in any order.
- Panner.SurroundPanner.ApplyResponse: the source stores whatever JSON object the service returns; the model only accepts a record of the five channel gains. Malformed or missing bodies are not modelled, because the source has no handling for them.
- Which key events the browser produces is not modelled: a key press is a `KeyEvent` whose shift flag and key name are independent inputs. The browser reports `H J K L` when shift is held without Caps Lock, so `KeyEvent(true, "l")` and the other shifted lower-case vi keys occur only under Caps Lock. The click the browser adds after Enter or Space on the button is not generated by the model; `Run` accepts any order of events, including a key press followed by a click.
- JavaScript numbers are doubles; the model uses unbounded integers for pixels. Pointer offsets are whole pixels and nudges add 1 or 10, so no rounding happens within the range a double holds exactly.
- client/speaker-icon.ts is a decorative glyph rotated by CSS and is not part of this model. server/index.ts only answers `{status: "ok"}` on `/` and is not part of this model; the gain service it would call is not in the repository.
- Normalised coordinates, rescaling on resize, recentering and rejection of stale responses do not appear in the component's code, so none is modelled. The request carries raw pixel coordinates (client/surround-panner.ts:46), and the model follows that.
