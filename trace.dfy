/*
 * What the canvas update does over a whole sequence of events: the curves
 * it publishes are the in-bounds left presses grouped three by three, and
 * the pending state holds the presses left over.
 */
module BezierTrace {
  import opened Bezier

  /** One event together with the cursor position inside the bounds. */
  datatype Input = Input(event: Event, cursor: Option<Point>)

  /** The state after a run of events and the curves published on the way. */
  datatype Trace = Trace(pending: Option<Pending>, curves: seq<Curve>)

  /** An input that places a point: a left press inside the bounds. */
  predicate IsClick(input: Input) {
    input.cursor.Some? && IsLeftPress(input.event)
  }

  /** The positions of the clicks among the inputs, in order. */
  function Clicks(inputs: seq<Input>): (r: seq<Point>)
    ensures |r| <= |inputs|
    ensures (forall i :: 0 <= i < |inputs| ==> !IsClick(inputs[i])) ==> r == []
  {
    if inputs == [] then []
    else if IsClick(inputs[0]) then [inputs[0].cursor.value] + Clicks(inputs[1..])
    else Clicks(inputs[1..])
  }

  /** The points a pending state holds. */
  function Points(pending: Option<Pending>): (r: seq<Point>)
    ensures |r| < 3
  {
    match pending
    case None => []
    case Some(One(from)) => [from]
    case Some(Two(from, to)) => [from, to]
  }

  /** The pending state that holds the given points. */
  function FromPoints(s: seq<Point>): (r: Option<Pending>)
    requires |s| < 3
    ensures Points(r) == s
  {
    if |s| == 0 then None
    else if |s| == 1 then Some(One(s[0]))
    else Some(Two(s[0], s[1]))
  }

  lemma PointsRoundTrip(pending: Option<Pending>)
    ensures FromPoints(Points(pending)) == pending
  {
  }

  /** The points grouped into curves, three consecutive points per curve. */
  function Triples(s: seq<Point>): (r: seq<Curve>)
    ensures |r| == |s| / 3
  {
    if |s| < 3 then [] else [Curve(s[0], s[1], s[2])] + Triples(s[3..])
  }

  /** The k-th curve is made of the points 3k, 3k+1 and 3k+2. */
  lemma {:induction false} TriplesAt(s: seq<Point>, k: nat)
    requires k < |s| / 3
    ensures Triples(s)[k] == Curve(s[3 * k], s[3 * k + 1], s[3 * k + 2])
    decreases k
  {
    if k > 0 {
      TriplesAt(s[3..], k - 1);
    }
  }

  /** The points left over once the full triples are taken. */
  function Remainder(s: seq<Point>): (r: seq<Point>)
    ensures |r| == |s| % 3
  {
    if |s| < 3 then s else Remainder(s[3..])
  }

  /** The remainder is the tail of the points after the last full triple. */
  lemma {:induction false} RemainderIsSuffix(s: seq<Point>)
    ensures Remainder(s) == s[3 * (|s| / 3)..]
    decreases |s|
  {
    if |s| >= 3 {
      RemainderIsSuffix(s[3..]);
      assert s[3..][3 * (|s[3..]| / 3)..] == s[3 * (|s| / 3)..];
    }
  }

  /** Feeds the inputs to the canvas update one after the other. Every
      published curve consumed three clicks. */
  function Run(pending: Option<Pending>, inputs: seq<Input>): (r: Trace)
    ensures 3 * |r.curves| + |Points(r.pending)| == |Points(pending)| + |Clicks(inputs)|
    decreases |inputs|
  {
    if inputs == [] then Trace(pending, [])
    else
      var o := Step(pending, inputs[0].event, inputs[0].cursor);
      var rest := Run(o.pending, inputs[1..]);
      Trace(rest.pending, Published(o.curve) + rest.curves)
  }

  /** One click moves its point from the clicks still to come into the
      pending state, or closes a triple that the update publishes. */
  lemma ClickRegroups(pending: Option<Pending>, q: Point, rest: seq<Point>)
    ensures var o := Step(pending, Mouse(ButtonPressed(Left)), Some(q));
            Triples(Points(pending) + ([q] + rest)) == Published(o.curve) + Triples(Points(o.pending) + rest) &&
            Remainder(Points(pending) + ([q] + rest)) == Remainder(Points(o.pending) + rest)
  {
    var s := Points(pending) + ([q] + rest);
    var o := Step(pending, Mouse(ButtonPressed(Left)), Some(q));
    match pending {
      case None =>
        assert s == Points(o.pending) + rest;
      case Some(One(a)) =>
        assert s == Points(o.pending) + rest;
      case Some(Two(a, b)) =>
        assert s[..3] == [a, b, q];
        assert s[3..] == Points(o.pending) + rest;
    }
  }

  /** The main property: whatever the events, the run publishes the pending
      points followed by the clicks, grouped three by three, and keeps the
      rest pending. Events that are not clicks play no part. */
  lemma {:induction false} RunGroupsClicks(pending: Option<Pending>, inputs: seq<Input>)
    ensures Run(pending, inputs) ==
              Trace(FromPoints(Remainder(Points(pending) + Clicks(inputs))),
                    Triples(Points(pending) + Clicks(inputs)))
    decreases |inputs|
  {
    if inputs == [] {
      assert Points(pending) + Clicks(inputs) == Points(pending);
      PointsRoundTrip(pending);
    } else {
      var head, tail := inputs[0], inputs[1..];
      var o := Step(pending, head.event, head.cursor);
      RunGroupsClicks(o.pending, tail);
      if IsClick(head) {
        assert Clicks(inputs) == [head.cursor.value] + Clicks(tail);
        ClickRegroups(pending, head.cursor.value, Clicks(tail));
      } else {
        assert Clicks(inputs) == Clicks(tail);
      }
    }
  }

  /** From an empty canvas, one curve is published per three clicks. This
      follows from the contract of `Run`, since at most two points pend. */
  lemma CurveCount(inputs: seq<Input>)
    ensures |Run(None, inputs).curves| == |Clicks(inputs)| / 3
    ensures |Points(Run(None, inputs).pending)| == |Clicks(inputs)| % 3
  {
  }

  /** Three clicks from an empty canvas: nothing on the first two, the curve
      through the three points on the third, and the canvas is empty again. */
  lemma ThreeClicks(p1: Point, p2: Point, p3: Point)
    ensures var click := Mouse(ButtonPressed(Left));
            Step(None, click, Some(p1)).curve == None &&
            Step(Step(None, click, Some(p1)).pending, click, Some(p2)).curve == None &&
            Run(None, [Input(click, Some(p1)), Input(click, Some(p2)), Input(click, Some(p3))])
              == Trace(None, [Curve(p1, p2, p3)])
  {
    var click := Mouse(ButtonPressed(Left));
    var inputs := [Input(click, Some(p1)), Input(click, Some(p2)), Input(click, Some(p3))];
    assert Clicks(inputs) == [p1, p2, p3] by {
      assert inputs[1..][1..] == [Input(click, Some(p3))];
      assert Clicks(inputs[1..][1..]) == [p3] + Clicks([]);
      assert Clicks(inputs[1..]) == [p2] + Clicks(inputs[1..][1..]);
      assert Clicks(inputs) == [p1] + Clicks(inputs[1..]);
    }
    RunGroupsClicks(None, inputs);
    assert Points(None) + Clicks(inputs) == [p1, p2, p3];
  }

  /** Clicks outside the bounds, and any other events, change nothing. */
  lemma {:induction false} NoClicksNoChange(pending: Option<Pending>, inputs: seq<Input>)
    requires forall i :: 0 <= i < |inputs| ==> !IsClick(inputs[i])
    ensures Run(pending, inputs) == Trace(pending, [])
    decreases |inputs|
  {
    if inputs != [] {
      assert !IsClick(inputs[0]);
      NoClicksNoChange(pending, inputs[1..]);
    }
  }
}
