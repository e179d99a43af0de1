/*
 * The `bezier` module of the Bézier tool: the canvas program that turns
 * three left-button presses into one quadratic Bézier curve, the cursor
 * icon it asks for, and the render cache that holds the finished curves.
 */
module Bezier {

  datatype Option<T> = None | Some(value: T)

  /** A position on the canvas, relative to its top-left corner. The
      coordinates are only ever copied, never computed on. */
  datatype Point = Point(x: real, y: real)

  /** The size of the canvas bounds. */
  datatype Size = Size(width: real, height: real)

  /** A finished quadratic Bézier segment: two end points and a control point. */
  datatype Curve = Curve(from: Point, to: Point, control: Point)

  /** The points collected so far for the curve under construction. The
      program state is an `Option<Pending>`: `None` before the first press. */
  datatype Pending = One(from: Point) | Two(from: Point, to: Point)

  /** Whether the canvas consumed an event. */
  datatype Status = Ignored | Captured

  datatype Button = Left | Right | Middle | Back | Forward | OtherButton(id: nat)

  datatype MouseEvent =
    | CursorEntered
    | CursorLeft
    | CursorMoved(position: Point)
    | ButtonPressed(button: Button)
    | ButtonReleased(button: Button)
    | WheelScrolled

  /** A canvas event; touch and keyboard payloads play no part here. */
  datatype Event = Mouse(mouse: MouseEvent) | Touch | Keyboard

  /** The cursor icons this program asks for: the framework's default icon,
      shown whenever the crosshair is not. */
  datatype Interaction = DefaultInteraction | Crosshair

  /** What one call of the canvas update leaves behind: the new program
      state, the event status and the curve it publishes, if any. */
  datatype Outcome = Outcome(pending: Option<Pending>, status: Status, curve: Option<Curve>)

  /** The curves a single update publishes: none or one. */
  function Published(curve: Option<Curve>): (r: seq<Curve>)
    ensures |r| <= 1
  {
    if curve.Some? then [curve.value] else []
  }

  predicate IsLeftPress(event: Event) {
    event == Mouse(ButtonPressed(Left))
  }

  /** The canvas update as a function of the old program state, the event
      and the cursor position inside the bounds (`None` when the cursor is
      outside them or unavailable). */
  function Step(pending: Option<Pending>, event: Event, cursor: Option<Point>): (r: Outcome)
    // outside the bounds every event is ignored and nothing changes
    ensures cursor.None? ==> r == Outcome(pending, Ignored, None)
    // an event is captured exactly when it is a mouse event inside the bounds
    ensures r.status == Captured <==> cursor.Some? && event.Mouse?
    // an ignored event never publishes a curve nor changes the state
    ensures r.status == Ignored ==> r.curve == None && r.pending == pending
    // only a left press inside the bounds changes anything
    ensures !(cursor.Some? && IsLeftPress(event)) ==> r.pending == pending && r.curve == None
    // a curve is published exactly on the press that completes a Two
    ensures r.curve.Some? <==> cursor.Some? && IsLeftPress(event) && pending.Some? && pending.value.Two?
    ensures r.curve.Some? ==>
              r.curve.value == Curve(pending.value.from, pending.value.to, cursor.value) && r.pending == None
  {
    match cursor
    case None => Outcome(pending, Ignored, None)
    case Some(position) =>
      match event
      case Mouse(ButtonPressed(Left)) =>
        (match pending
         case None => Outcome(Some(One(position)), Captured, None)
         case Some(One(from)) => Outcome(Some(Two(from, position)), Captured, None)
         case Some(Two(from, to)) => Outcome(None, Captured, Some(Curve(from, to, position))))
      case Mouse(_) => Outcome(pending, Captured, None)
      case _ => Outcome(pending, Ignored, None)
  }

  /** The three left-press transitions, one per pending state. */
  lemma LeftPressTransitions(a: Point, b: Point, c: Point)
    ensures Step(None, Mouse(ButtonPressed(Left)), Some(a)) == Outcome(Some(One(a)), Captured, None)
    ensures Step(Some(One(a)), Mouse(ButtonPressed(Left)), Some(b)) == Outcome(Some(Two(a, b)), Captured, None)
    ensures Step(Some(Two(a, b)), Mouse(ButtonPressed(Left)), Some(c)) == Outcome(None, Captured, Some(Curve(a, b, c)))
  {
  }

  /** The program state the canvas widget keeps between events. */
  class ProgramState {
    var pending: Option<Pending>

    constructor ()
      ensures pending == None
    {
      pending := None;
    }

    /** Handles one event, overwriting the pending state in place. */
    method Update(event: Event, cursor: Option<Point>) returns (status: Status, curve: Option<Curve>)
      modifies this
      ensures Outcome(pending, status, curve) == Step(old(pending), event, cursor)
      ensures status == Ignored ==> curve == None && pending == old(pending)
      ensures curve.Some? ==> status == Captured && pending == None
    {
      if cursor.None? {
        return Ignored, None;
      }
      var position := cursor.value;
      match event {
        case Mouse(mouseEvent) =>
          var message: Option<Curve>;
          if mouseEvent == ButtonPressed(Left) {
            match pending {
              case None =>
                pending := Some(One(position));
                message := None;
              case Some(One(from)) =>
                pending := Some(Two(from, position));
                message := None;
              case Some(Two(from, to)) =>
                pending := None;
                message := Some(Curve(from, to, position));
            }
          } else {
            message := None;
          }
          status, curve := Captured, message;
        case _ =>
          status, curve := Ignored, None;
      }
    }
  }

  /** The cursor icon: a crosshair while the cursor is over the bounds. The
      cursor is over the bounds exactly when its position in them exists. */
  function MouseInteraction(pending: Option<Pending>, cursor: Option<Point>): (r: Interaction)
    ensures r == Crosshair <==> cursor.Some?
  {
    if cursor.Some? then Crosshair else DefaultInteraction
  }

  /** The crosshair is shown exactly where the canvas captures events. */
  lemma CrosshairWhereCaptured(pending: Option<Pending>, cursor: Option<Point>)
    ensures MouseInteraction(pending, cursor) == Crosshair <==>
              exists event :: Step(pending, event, cursor).status == Captured
  {
    if cursor.Some? {
      var moved := Mouse(CursorMoved(cursor.value));
      assert Step(pending, moved, cursor).status == Captured;
    }
  }

  /** The render cache: empty, or the geometry last drawn for a given size.
      Geometry is represented by the curves it was tessellated from. */
  datatype CacheState = Empty | Filled(bounds: Size, geometry: seq<Curve>)

  /** The canvas state owned by the application: its render cache. */
  class State {
    var cache: CacheState

    /** `State::default()`: an empty cache. */
    constructor ()
      ensures cache == Empty
    {
      cache := Empty;
    }

    /** Invalidates the cache so that the next draw tessellates again. */
    method RequestRedraw()
      modifies this
      ensures cache == Empty
    {
      cache := Empty;
    }

    /** Draws the finished curves through the cache: geometry cached for the
        same size is reused, otherwise the curves are drawn and cached. */
    method DrawContent(bounds: Size, curves: seq<Curve>) returns (content: seq<Curve>)
      modifies this
      ensures old(cache).Filled? && old(cache).bounds == bounds ==> content == old(cache).geometry
      ensures !(old(cache).Filled? && old(cache).bounds == bounds) ==> content == curves
      ensures cache == Filled(bounds, content)
    {
      if cache.Filled? && cache.bounds == bounds {
        content := cache.geometry;
      } else {
        content := curves;
        cache := Filled(bounds, content);
      }
    }
  }
}
