/** The `SurroundPanner` component: its fields, updated in place by its event
    handlers. Each handler is proved against `Listener.Handle`; the network call
    of `send` is replaced by a ghost log of the queries it would issue.
 */
module Panner {
  import opened Listener

  /** The per-channel gains shown under the canvas (JSON numbers). */
  datatype Response = Response(l: real, r: real, c: real, ls: real, rs: real)

  /** The response shown before any answer has arrived. */
  const Silent: Response := Response(0.0, 0.0, 0.0, 0.0, 0.0)

  class SurroundPanner {
    var x: int
    var y: int
    var on: bool
    var response: Response
    /** Every gain query sent so far, oldest first. */
    ghost var queries: seq<Query>

    /** The interaction state as a `Listener.Panel` value. */
    function State(): Panel
      reads this
    {
      Panel(x, y, on)
    }

    constructor ()
      ensures x == StartPosition && y == StartPosition && !on
      ensures State() == Initial
      ensures response == Silent
      ensures queries == []
    {
      x, y, on := StartPosition, StartPosition, false;
      response := Silent;
      queries := [];
    }

    /** Issues a gain query for the current position. */
    method Send()
      modifies this`queries
      ensures queries == old(queries) + [(x, y)]
    {
      queries := queries + [(x, y)];
    }

    /** A response arriving replaces the shown gains as a whole. */
    method ApplyResponse(answer: Response)
      modifies this`response
      ensures response == answer
    {
      response := answer;
    }

    /** Click on the marker: flips the lock, nothing else. */
    method Toggle()
      modifies this`on
      ensures on == !old(on)
      ensures State() == Handle(old(State()), Click).panel
      ensures queries == old(queries) + Handle(old(State()), Click).sent
    {
      on := !on;
    }

    /** Pointer move over the canvas: followed only while locked. */
    method HandleMouse(layerX: int, layerY: int)
      modifies this`x, this`y, this`queries
      ensures old(on) ==> x == layerX && y == layerY && queries == old(queries) + [(layerX, layerY)]
      ensures !old(on) ==> x == old(x) && y == old(y) && queries == old(queries)
      ensures State() == Handle(old(State()), MouseMove(layerX, layerY)).panel
      ensures queries == old(queries) + Handle(old(State()), MouseMove(layerX, layerY)).sent
    {
      if on {
        x := layerX;
        y := layerY;
        Send();
      }
    }

    /** Key press on the marker: unlocks, nudges by the key, always queries. */
    method HandleKey(e: KeyEvent)
      modifies this`x, this`y, this`on, this`queries
      ensures !on
      ensures State() == PressKey(old(State()), e)
      ensures queries == old(queries) + [(x, y)]
      ensures State() == Handle(old(State()), KeyDown(e)).panel
      ensures queries == old(queries) + Handle(old(State()), KeyDown(e)).sent
    {
      on := false;
      var step := 1;
      if e.shift { step := 10; }
      if e.key == "l" || e.key == "ArrowRight" {
        x := x + step;
      } else if e.key == "h" || e.key == "ArrowLeft" {
        x := x - step;
      } else if e.key == "j" || e.key == "ArrowDown" {
        y := y + step;
      } else if e.key == "k" || e.key == "ArrowUp" {
        y := y - step;
      }
      Send();
    }

    /** Routes one event to its handler, as the rendered template does. */
    method Dispatch(e: Event)
      modifies this`x, this`y, this`on, this`queries
      ensures State() == Handle(old(State()), e).panel
      ensures queries == old(queries) + Handle(old(State()), e).sent
    {
      match e
      case Click => Toggle();
      case MouseMove(lx, ly) => HandleMouse(lx, ly);
      case KeyDown(k) => HandleKey(k);
    }
  }
}
