/*
 * The application of the Bézier tool: the list of finished curves, the
 * canvas state that caches their geometry, and the messages that change
 * them.
 */
module Tool {
  import opened Bezier

  datatype Message = AddCurve(curve: Curve) | Clear

  /** The application state: the canvas state and the finished curves. */
  class Example {
    var bezier: State
    var curves: seq<Curve>

    /** Geometry kept in the cache was drawn from the current curves, so a
        draw that reuses it shows exactly the finished curves. */
    ghost predicate Valid()
      reads this, bezier
    {
      bezier.cache.Filled? ==> bezier.cache.geometry == curves
    }

    /** `Example::default()`: no curves and an empty cache. */
    constructor ()
      ensures Valid()
      ensures curves == [] && bezier.cache == Empty && fresh(bezier)
    {
      bezier := new State();
      curves := [];
    }

    method Update(message: Message)
      requires Valid()
      modifies this, bezier
      ensures Valid()
      ensures message.AddCurve? ==>
                curves == old(curves) + [message.curve] && bezier == old(bezier) && bezier.cache == Empty
      ensures message.Clear? ==> curves == [] && fresh(bezier) && bezier.cache == Empty
    {
      match message {
        case AddCurve(curve) =>
          curves := curves + [curve];
          bezier.RequestRedraw();
        case Clear =>
          bezier := new State();
          curves := [];
      }
    }

    /** Draws the finished curves through the canvas cache. Whether the
        cache is reused or refilled, the content is the current curves. */
    method DrawContent(bounds: Size) returns (content: seq<Curve>)
      requires Valid()
      modifies bezier
      ensures Valid()
      ensures content == curves
      ensures bezier.cache == Filled(bounds, curves)
    {
      content := bezier.DrawContent(bounds, curves);
    }
  }

  /** One canvas event delivered to the application: the canvas update runs
      on the program state, and a curve it publishes reaches the
      application as an `AddCurve` message. */
  method Dispatch(example: Example, program: ProgramState, event: Event, cursor: Option<Point>)
    returns (status: Status)
    requires example.Valid()
    modifies example, example.bezier, program
    ensures example.Valid()
    ensures var o := Step(old(program.pending), event, cursor);
            program.pending == o.pending && status == o.status &&
            example.curves == old(example.curves) + Published(o.curve) &&
            example.bezier == old(example.bezier) &&
            (o.curve.Some? ==> example.bezier.cache == Empty) &&
            (o.curve.None? ==> example.bezier.cache == old(example.bezier.cache))
  {
    var curve;
    status, curve := program.Update(event, cursor);
    if curve.Some? {
      example.Update(AddCurve(curve.value));
    }
  }
}
