/** The listener-position interaction state of the surround panner, as values.

    A `Panel` is the component state (marker position in canvas pixels and the
    lock flag); an `Event` is one of the three DOM events the component listens
    to; `Handle` is the effect of one event and `Run` the effect of a sequence of
    events. Every gain query the component issues is recorded as the `(x, y)`
    pixel pair it puts on the request line.
 */
module Listener {

  /** The pixel pair carried by one gain query (`/api?x=..&y=..`). */
  type Query = (int, int)

  /** The component's own state: marker position and lock flag. */
  datatype Panel = Panel(x: int, y: int, on: bool)

  /** A keydown event: the `key` string and whether shift was held. */
  datatype KeyEvent = KeyEvent(shift: bool, key: string)

  /** The events the rendered template routes to the component. */
  datatype Event =
    | Click                                  // on the marker button: toggle
    | MouseMove(layerX: int, layerY: int)    // over the canvas: handleMouse
    | KeyDown(press: KeyEvent)               // on the marker button: handleKey

  /** What one event does: the new state and the queries it sends, in order. */
  datatype Outcome = Outcome(panel: Panel, sent: seq<Query>)

  /** Start position of the marker, in pixels on both axes. */
  const StartPosition: int := 195

  /** Side of the square canvas the circle is drawn in, in pixels. */
  const CanvasSize: int := 400

  /** The state the component is created in. */
  const Initial: Panel := Panel(StartPosition, StartPosition, false)

  function Abs(n: int): nat { if n < 0 then -n else n }

  /** Pixels moved by one nudge: 10 with shift held, 1 otherwise. */
  function Step(shift: bool): int { if shift then 10 else 1 }

  /** The eight key names the keyboard handler reacts to (arrows and vi keys). */
  predicate Nudges(key: string) {
    key in {"l", "ArrowRight", "h", "ArrowLeft", "j", "ArrowDown", "k", "ArrowUp"}
  }

  /** Displacement `(dx, dy)` that one key press applies to the marker. */
  function KeyOffset(e: KeyEvent): (d: (int, int))
    ensures d.0 == 0 || d.1 == 0
    ensures Abs(d.0) + Abs(d.1) == if Nudges(e.key) then Step(e.shift) else 0
  {
    var step := Step(e.shift);
    if e.key == "l" || e.key == "ArrowRight" then (step, 0)
    else if e.key == "h" || e.key == "ArrowLeft" then (-step, 0)
    else if e.key == "j" || e.key == "ArrowDown" then (0, step)
    else if e.key == "k" || e.key == "ArrowUp" then (0, -step)
    else (0, 0)
  }

  /** The state after a key press: always unlocked, position nudged by the key. */
  function PressKey(p: Panel, e: KeyEvent): (q: Panel)
    ensures !q.on
    ensures e.key in {"l", "ArrowRight"} ==> q.x == p.x + Step(e.shift) && q.y == p.y
    ensures e.key in {"h", "ArrowLeft"} ==> q.x == p.x - Step(e.shift) && q.y == p.y
    ensures e.key in {"j", "ArrowDown"} ==> q.y == p.y + Step(e.shift) && q.x == p.x
    ensures e.key in {"k", "ArrowUp"} ==> q.y == p.y - Step(e.shift) && q.x == p.x
    ensures !Nudges(e.key) ==> q.x == p.x && q.y == p.y
  {
    var d := KeyOffset(e);
    Panel(p.x + d.0, p.y + d.1, false)
  }

  /** One event: clicks toggle the lock, pointer moves follow the pointer only
      while locked, key presses nudge and unlock. A query is sent exactly when
      the handler calls `send`, and it carries the position after the update. */
  function Handle(p: Panel, e: Event): (out: Outcome)
    ensures |out.sent| <= 1
    ensures out.sent == [] <==> e.Click? || (e.MouseMove? && !p.on)
    ensures forall q :: q in out.sent ==> q == (out.panel.x, out.panel.y)
    ensures out.sent == [] ==> out.panel.x == p.x && out.panel.y == p.y
    ensures e.MouseMove? ==> out.panel.on == p.on
    ensures e.KeyDown? ==> !out.panel.on
    ensures e.Click? ==> out.panel == p.(on := !p.on)
    ensures e.MouseMove? && p.on ==> out.panel == Panel(e.layerX, e.layerY, true)
    ensures e.KeyDown? ==> out.panel == PressKey(p, e.press)
  {
    match e
    case Click => Outcome(p.(on := !p.on), [])
    case MouseMove(lx, ly) =>
      if p.on then Outcome(Panel(lx, ly, true), [(lx, ly)]) else Outcome(p, [])
    case KeyDown(k) =>
      var q := PressKey(p, k);
      Outcome(q, [(q.x, q.y)])
  }

  /** The events handled one after another, queries in the order they are sent.
      Whatever the events, either no query was sent and the marker never left
      its position, or the last query sent carries the final position. */
  function Run(p: Panel, es: seq<Event>): (out: Outcome)
    ensures |out.sent| <= |es|
    ensures out.sent == [] ==> out.panel.x == p.x && out.panel.y == p.y
    ensures out.sent != [] ==> out.sent[|out.sent| - 1] == (out.panel.x, out.panel.y)
    ensures es != [] && es[|es| - 1].KeyDown? ==> !out.panel.on
    decreases |es|
  {
    if es == [] then Outcome(p, [])
    else
      var first := Handle(p, es[0]);
      var rest := Run(first.panel, es[1..]);
      Outcome(rest.panel, first.sent + rest.sent)
  }

  /** A click flips the lock and nothing else; a second click restores the state. */
  lemma ToggleTwice(p: Panel)
    ensures Run(p, [Click]) == Outcome(p.(on := !p.on), [])
    ensures Run(p, [Click, Click]) == Outcome(p, [])
  {
  }

  /** Key names are compared case-sensitively, so the upper-case names a browser
      reports for shift+h, shift+j, shift+k and shift+l do not nudge: the press
      only clears the lock and re-sends the current position. */
  lemma ShiftedViKeysDoNotNudge(p: Panel, key: string)
    requires key in {"H", "J", "K", "L"}
    ensures Handle(p, KeyDown(KeyEvent(true, key))) == Outcome(Panel(p.x, p.y, false), [(p.x, p.y)])
  {
  }

  /** The key handler sits on a button, which also receives click events: a key
      press followed by a click leaves the marker locked, at the nudged position,
      whatever the state before. */
  lemma KeyThenClickLocks(p: Panel, k: KeyEvent)
    ensures Run(p, [KeyDown(k), Click]).panel == PressKey(p, k).(on := true)
    ensures |Run(p, [KeyDown(k), Click]).sent| == 1
  {
    var first := Handle(p, KeyDown(k));
    assert first.panel == PressKey(p, k);
    assert [KeyDown(k), Click][1..] == [Click];
    assert Run(first.panel, [Click]) == Outcome(first.panel.(on := true), []);
  }

  predicate AllMoves(es: seq<Event>) { forall i :: 0 <= i < |es| ==> es[i].MouseMove? }

  /** While unlocked, any sequence of pointer moves changes nothing and sends nothing. */
  lemma {:induction false} UnlockedMovesIgnored(p: Panel, es: seq<Event>)
    requires !p.on
    requires AllMoves(es)
    ensures Run(p, es) == Outcome(p, [])
  {
    if es != [] {
      assert Handle(p, es[0]) == Outcome(p, []);
      UnlockedMovesIgnored(p, es[1..]);
    }
  }

  /** While locked, every pointer move puts the marker exactly at the pointer and
      sends one query for that point; the lock stays on. */
  lemma {:induction false} LockedMovesFollow(p: Panel, es: seq<Event>)
    requires p.on
    requires AllMoves(es)
    decreases |es|
    ensures var out := Run(p, es);
      && out.panel.on
      && |out.sent| == |es|
      && (forall i :: 0 <= i < |es| ==> out.sent[i] == (es[i].layerX, es[i].layerY))
      && (es == [] ==> out.panel == p)
      && (es != [] ==> out.panel.x == es[|es| - 1].layerX && out.panel.y == es[|es| - 1].layerY)
  {
    if es != [] {
      var first := Handle(p, es[0]);
      assert first == Outcome(Panel(es[0].layerX, es[0].layerY, true), [(es[0].layerX, es[0].layerY)]);
      LockedMovesFollow(first.panel, es[1..]);
      var rest := Run(first.panel, es[1..]);
      assert Run(p, es).sent == first.sent + rest.sent;
      forall i | 0 <= i < |es|
        ensures Run(p, es).sent[i] == (es[i].layerX, es[i].layerY)
      {
        if i > 0 {
          assert Run(p, es).sent[i] == rest.sent[i - 1];
          assert es[1..][i - 1] == es[i];
        }
      }
    }
  }

  /** Key presses as the events they arrive in. */
  function Presses(keys: seq<KeyEvent>): seq<Event> {
    if keys == [] then [] else [KeyDown(keys[0])] + Presses(keys[1..])
  }

  /** Sum of the key offsets of a sequence of key presses. */
  function TotalOffset(keys: seq<KeyEvent>): (int, int) {
    if keys == [] then (0, 0)
    else
      var d := KeyOffset(keys[0]);
      var rest := TotalOffset(keys[1..]);
      (d.0 + rest.0, d.1 + rest.1)
  }

  /** A sequence of key presses moves the marker by the sum of the key offsets,
      sends one query per press, and (if there was a press) leaves it unlocked. */
  lemma {:induction false} KeysAccumulate(p: Panel, keys: seq<KeyEvent>)
    decreases |keys|
    ensures var out := Run(p, Presses(keys));
      && |out.sent| == |keys|
      && out.panel.x == p.x + TotalOffset(keys).0
      && out.panel.y == p.y + TotalOffset(keys).1
      && (keys == [] ==> out.panel == p)
      && (keys != [] ==> !out.panel.on)
  {
    if keys != [] {
      var es := Presses(keys);
      assert es[0] == KeyDown(keys[0]);
      assert es[1..] == Presses(keys[1..]);
      var first := Handle(p, es[0]);
      KeysAccumulate(first.panel, keys[1..]);
    }
  }

  /** The same key pressed `n` times. */
  function Repeat(e: KeyEvent, n: nat): seq<KeyEvent> {
    if n == 0 then [] else [e] + Repeat(e, n - 1)
  }

  lemma {:induction false} RepeatOffset(e: KeyEvent, n: nat)
    ensures TotalOffset(Repeat(e, n)) == (n * KeyOffset(e).0, n * KeyOffset(e).1)
  {
    if n > 0 {
      var r := Repeat(e, n);
      assert r[0] == e && r[1..] == Repeat(e, n - 1);
      RepeatOffset(e, n - 1);
    }
  }

  /** Pressing the same key `n` times moves the marker `n` times that key's offset. */
  lemma RepeatedPresses(p: Panel, e: KeyEvent, n: nat)
    ensures var out := Run(p, Presses(Repeat(e, n)));
      && out.panel.x == p.x + n * KeyOffset(e).0
      && out.panel.y == p.y + n * KeyOffset(e).1
  {
    KeysAccumulate(p, Repeat(e, n));
    RepeatOffset(e, n);
  }

  /** Nudges are not clamped: from the start position, twenty shift+left presses
      put the marker left of the canvas and twenty-one shift+right presses put it
      past the canvas's right edge. */
  lemma KeysLeaveCanvas()
    ensures Run(Initial, Presses(Repeat(KeyEvent(true, "ArrowLeft"), 20))).panel.x == -5
    ensures Run(Initial, Presses(Repeat(KeyEvent(true, "ArrowRight"), 21))).panel.x == 405 > CanvasSize
  {
    RepeatedPresses(Initial, KeyEvent(true, "ArrowLeft"), 20);
    RepeatedPresses(Initial, KeyEvent(true, "ArrowRight"), 21);
  }
}
