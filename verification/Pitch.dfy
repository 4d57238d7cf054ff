/** The engine's pitch arithmetic: a voice's Pitch parameter, the hertz it is reported as, and the
    value of a \Pit= tag. Whole numbers, divided the way C++ divides them. */
module Pitch {

  const PARAM_MIN: int := 26
  const PARAM_MAX: int := 100
  const HERTZ_MIN: int := 30
  const HERTZ_MAX: int := 250

  /** Division that drops the fraction, whichever side of zero it is on. */
  function Div(a: int, b: int): (q: int)
    requires b > 0
    ensures a >= 0 ==> q >= 0 && b * q <= a < b * q + b
    ensures a < 0 ==> q <= 0 && b * q - b < a <= b * q
  {
    if a >= 0 then a / b else -((-a) / b)
  }

  function ClampParam(param: int): int {
    if param < PARAM_MIN then PARAM_MIN else if param > PARAM_MAX then PARAM_MAX else param
  }

  function ClampHertz(hertz: int): int {
    if hertz < HERTZ_MIN then HERTZ_MIN else if hertz > HERTZ_MAX then HERTZ_MAX else hertz
  }

  function ReportedHertz(param: int): int { HERTZ_MIN + Div(110 * (ClampParam(param) - PARAM_MIN), 37) }

  function SelectedParam(hertz: int): int { PARAM_MIN + Div(37 * (ClampHertz(hertz) - HERTZ_MIN), 110) }

  function SpokenParam(param: int): int { SelectedParam(ReportedHertz(param)) }

  function ParamBehind(hertz: int): int { ClampParam(PARAM_MIN + Div(37 * (hertz - HERTZ_MIN + 1) - 1, 110)) }

  function TagValue(param: int): int { Div(22 * ClampParam(param) + 16, 10) }

  function ParamFromTag(value: int): int {
    var param := Div(value * 5, 11);
    if param < 0 then 0 else if param > 100 then 100 else param
  }

  /** ParamBehind finds the highest parameter reported at or below a given hertz: from 30 Hz, the lowest
      there is, for every parameter; below that it answers 26, which is reported above. */
  lemma BehindIsHighest(param: int, hertz: int)
    requires PARAM_MIN <= param <= PARAM_MAX
    ensures (ReportedHertz(param) <= hertz <==> param <= ParamBehind(hertz)) <==>
              hertz >= HERTZ_MIN || param > PARAM_MIN
  {
  }

  /** So every parameter comes back from its own hertz. */
  lemma BehindReported(param: int)
    ensures ParamBehind(ReportedHertz(param)) == ClampParam(param)
  {
  }

  /** The ends of the scale: 26 to 100, reported as 30 to 250 Hz, and as 58 to 221 in a \Pit= tag. */
  lemma EndsOfScale(param: int)
    ensures param <= 26 ==> ReportedHertz(param) == 30 && TagValue(param) == 58
    ensures param >= 100 ==> ReportedHertz(param) == 250 && TagValue(param) == 221
  {
  }

  /** The engine takes 22 tag values for every 10 parameters; a parameter is given as the whole number
      nearest to the middle of its own. */
  lemma TagIsMiddle(param: int)
    requires 26 <= param <= 100
    ensures -5 <= 10 * TagValue(param) - 11 * (2 * param + 1) <= 5
  {
  }

  /** Selecting by the hertz a parameter is reported as loses one step, but for the three whose hertz is
      exact. */
  lemma SpokenIs(param: int)
    requires PARAM_MIN <= param <= PARAM_MAX
    ensures SpokenParam(param) == if param == 26 || param == 63 || param == 100 then param else param - 1
  {
    var k := param - PARAM_MIN;
    var q := Div(110 * k, 37);
    var r := 110 * k - 37 * q;
    assert 0 <= r < 37 && q <= 220;
    var n := Div(37 * q, 110);
    assert 37 * q == 110 * k - r;
    assert n == if r == 0 then k else k - 1;
    assert r == 0 <==> k == 0 || k == 37 || k == 74 by {
      Remainder(k, r, q);
    }
  }

  lemma Remainder(k: int, r: int, q: int)
    requires 0 <= k <= 74 && 0 <= r < 37 && 110 * k == 37 * q + r
    ensures r == 0 <==> k == 0 || k == 37 || k == 74
  {
  }

  /** The value written into a \Pit= tag is read back by the engine as the parameter it was written for. */
  lemma TagReadsBack(param: int)
    ensures ParamFromTag(TagValue(param)) == ClampParam(param)
  {
  }

  /** Higher in is never lower out, all the way along. */
  lemma Monotone(a: int, b: int)
    requires a <= b
    ensures ReportedHertz(a) <= ReportedHertz(b) && SelectedParam(a) <= SelectedParam(b)
    ensures SpokenParam(a) <= SpokenParam(b) && ParamBehind(a) <= ParamBehind(b)
    ensures TagValue(a) <= TagValue(b) && ParamFromTag(a) <= ParamFromTag(b)
  {
    DivMonotone(110 * (ClampParam(a) - PARAM_MIN), 110 * (ClampParam(b) - PARAM_MIN), 37);
    DivMonotone(37 * (ClampHertz(a) - HERTZ_MIN), 37 * (ClampHertz(b) - HERTZ_MIN), 110);
    DivMonotone(37 * (ClampHertz(ReportedHertz(a)) - HERTZ_MIN), 37 * (ClampHertz(ReportedHertz(b)) - HERTZ_MIN), 110);
    DivMonotone(37 * (a - HERTZ_MIN + 1) - 1, 37 * (b - HERTZ_MIN + 1) - 1, 110);
    DivMonotone(22 * ClampParam(a) + 16, 22 * ClampParam(b) + 16, 10);
    DivMonotone(a * 5, b * 5, 11);
  }

  lemma DivMonotone(a: int, b: int, d: int)
    requires a <= b && d > 0
    ensures Div(a, d) <= Div(b, d)
  {
    var x, y := Div(a, d), Div(b, d);
    if x > y {
      AtLeastOnce(x - y, d);
      assert false;
    }
  }

  lemma {:induction false} AtLeastOnce(n: nat, d: int)
    requires n > 0 && d > 0
    ensures d * n >= d
  {
  }
}
