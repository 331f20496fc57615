/** console/tune.py's _confirm for one challenger under a deadline: rounds of one trial each, in
    rotated order, and what they leave to decide on. A trial cut short at the deadline is meant to
    leave the challenger undecided; the proofs say when it does. */
module TuneConfirm {
  import opened Wrappers
  import opened TuneGates

  // ---- trials ------------------------------------------------------------------------------------

  /** The metrics of one run; a missing input gives none. */
  datatype Sample = Sample(metric: Option<real>, guard: Option<real>, quality: Option<real>)

  datatype Shot = Done(ms: seq<Sample>) | Failed | CutShort

  /** n rounds, the deadline, the clock's readings in turn and the trials in turn, two to a round. */
  datatype Trials = Trials(n: nat, deadline: real, clock: nat -> real, shot: nat -> Shot)

  /** What _confirm makes of a challenger: cut short, an exception, a failed trial, or measurements. */
  datatype Confirmation = OutOfTime | Raises | TrialFailed | Measure(m: Measured)

  /** Every other round starts with the challenger. */
  predicate Challenges(t: nat) { (t / 2 + t % 2) % 2 == 1 }

  /** The known values. */
  function Known(xs: seq<Option<real>>): (r: seq<real>)
    ensures |r| <= |xs|
  {
    if xs == [] then []
    else
      var last := xs[|xs| - 1];
      Known(xs[..|xs| - 1]) + if last.Some? then [last.value] else []
  }

  function Metrics(ms: seq<Sample>): seq<Option<real>> { seq(|ms|, i requires 0 <= i < |ms| => ms[i].metric) }

  function Guards(ms: seq<Sample>): seq<Option<real>> { seq(|ms|, i requires 0 <= i < |ms| => ms[i].guard) }

  function Qualities(ms: seq<Sample>): seq<Option<real>> { seq(|ms|, i requires 0 <= i < |ms| => ms[i].quality) }

  /** summarize's median. */
  function MedianOf(xs: seq<Option<real>>): Option<real> { if Known(xs) == [] then None else Some(Median(Known(xs))) }

  /** What the gates read of the incumbent's samples and the challenger's. */
  function MeasuredOf(base: seq<Sample>, chal: seq<Sample>): Measured
  {
    Measured(Known(Metrics(base)), Known(Metrics(chal)), MedianOf(Guards(base)), MedianOf(Guards(chal)),
             MedianOf(Qualities(base)), MedianOf(Qualities(chal)))
  }

  // ---- the rounds --------------------------------------------------------------------------------

  /** The samples so far, whether the challenger failed, and the next reading of the clock. */
  datatype Tally = Tally(base: seq<Sample>, chal: seq<Sample>, failed: bool, tick: nat)

  function Start(tick: nat): Tally { Tally([], [], false, tick) }

  /** After the rounds: the incumbent must have n samples, and a challenger that failed is no candidate. */
  function Verdict(c: Trials, s: Tally): Confirmation
  {
    var m := MeasuredOf(s.base, s.chal);
    if c.n < 1 || |m.base| < c.n then Raises else if s.failed then TrialFailed else Measure(m)
  }

  /** The rounds from trial t on. */
  function From(c: Trials, t: nat, s: Tally): Confirmation
    requires t <= 2 * c.n
    decreases 2 * c.n - t
  {
    if t == 2 * c.n then Verdict(c, s)
    else if Challenges(t) && s.failed then From(c, t + 1, s)
    else if c.clock(s.tick) >= c.deadline then OutOfTime
    else
      match c.shot(t)
      case Done(ms) => From(c, t + 1, Counted(s, t, ms))
      case _ => if Challenges(t) then From(c, t + 1, s.(failed := true, tick := s.tick + 1)) else Raises
  }

  function Counted(s: Tally, t: nat, ms: seq<Sample>): Tally
  {
    if Challenges(t) then s.(chal := s.chal + ms, tick := s.tick + 1) else s.(base := s.base + ms, tick := s.tick + 1)
  }

  /** The incumbent (false) and the challenger (true), rotated by the round's number. */
  function Order(i: nat): (r: seq<bool>)
    ensures |r| == 2 && forall pos :: 0 <= pos < 2 ==> r[pos] == Challenges(2 * i + pos)
  {
    SlotOf(i, 0);
    SlotOf(i, 1);
    if i % 2 == 0 then [false, true] else [true, false]
  }

  /** _confirm: the rounds and, within each, the incumbent and the challenger in rotated order. */
  method Confirm(c: Trials, tick: nat) returns (r: Confirmation)
    ensures r == From(c, 0, Start(tick))
  {
    var s := Start(tick);
    for i := 0 to c.n
      invariant From(c, 0, Start(tick)) == From(c, 2 * i, s)
    {
      var order := Order(i);
      for pos := 0 to 2
        invariant From(c, 0, Start(tick)) == From(c, 2 * i + pos, s)
      {
        var t := 2 * i + pos;
        if order[pos] && s.failed {
          continue;
        }
        if c.clock(s.tick) >= c.deadline {
          return OutOfTime;
        }
        var shot := c.shot(t);
        if shot.Done? {
          s := Counted(s, t, shot.ms);
        } else if order[pos] {
          s := s.(failed := true, tick := s.tick + 1);
        } else {
          return Raises;
        }
      }
    }
    r := Verdict(c, s);
  }

  lemma SlotOf(i: nat, pos: nat)
    requires pos < 2
    ensures Challenges(2 * i + pos) <==> (i + pos) % 2 == 1
  {
    assert (2 * i + pos) / 2 == i && (2 * i + pos) % 2 == pos;
  }

  lemma {:induction false} MeasureIsEnough(c: Trials, t: nat, s: Tally)
    requires t <= 2 * c.n
    ensures From(c, t, s).Measure? ==> c.n >= 1 && |From(c, t, s).m.base| >= c.n
    decreases 2 * c.n - t
  {
    if t < 2 * c.n {
      if Challenges(t) && s.failed {
        MeasureIsEnough(c, t + 1, s);
      } else if c.clock(s.tick) < c.deadline {
        match c.shot(t)
        case Done(ms) => MeasureIsEnough(c, t + 1, Counted(s, t, ms));
        case _ => if Challenges(t) { MeasureIsEnough(c, t + 1, s.(failed := true, tick := s.tick + 1)); }
      }
    }
  }

  // ---- while every trial is done -------------------------------------------------------------------

  /** The trials before t all ran and were done. */
  predicate AllDone(c: Trials, t: nat, tick: nat)
  {
    forall u: nat :: u < t ==> c.shot(u).Done? && c.clock(tick + u) < c.deadline
  }

  /** What they leave. */
  function After(c: Trials, t: nat, tick: nat): Tally
    requires AllDone(c, t, tick)
  {
    if t == 0 then Start(tick) else Counted(After(c, t - 1, tick), t - 1, c.shot(t - 1).ms)
  }

  lemma OneMore(c: Trials, t: nat, tick: nat)
    requires t < 2 * c.n && AllDone(c, t + 1, tick) && AllDone(c, t, tick)
    requires !After(c, t, tick).failed && After(c, t, tick).tick == tick + t
    ensures !After(c, t + 1, tick).failed && After(c, t + 1, tick).tick == tick + (t + 1)
    ensures From(c, t, After(c, t, tick)) == From(c, t + 1, After(c, t + 1, tick))
  {
    assert c.shot(t).Done? && c.clock(tick + t) < c.deadline;
  }

  lemma {:induction false} Reaches(c: Trials, t: nat, tick: nat)
    requires t <= 2 * c.n && AllDone(c, t, tick)
    ensures !After(c, t, tick).failed && After(c, t, tick).tick == tick + t
    ensures From(c, 0, Start(tick)) == From(c, t, After(c, t, tick))
  {
    if t > 0 {
      Reaches(c, t - 1, tick);
      OneMore(c, t - 1, tick);
    }
  }

  /** A challenger is measured exactly when every trial of every round ran and was done, and enough
      of the incumbent's had the metric; the measurement is that of all the rounds. */
  lemma MeasuredIff(c: Trials, tick: nat)
    ensures From(c, 0, Start(tick)).Measure?
            <==> c.n >= 1 && AllDone(c, 2 * c.n, tick) && |Known(Metrics(After(c, 2 * c.n, tick).base))| >= c.n
    ensures From(c, 0, Start(tick)).Measure? ==>
              var s := After(c, 2 * c.n, tick);
              From(c, 0, Start(tick)).m == MeasuredOf(s.base, s.chal)
  {
    if AllDone(c, 2 * c.n, tick) {
      Reaches(c, 2 * c.n, tick);
    } else {
      var t := FirstUndone(c, 2 * c.n, tick);
      UndoneIsNotMeasured(c, t, tick);
    }
  }

  lemma UndoneIsNotMeasured(c: Trials, t: nat, tick: nat)
    requires t < 2 * c.n && AllDone(c, t, tick) && !(c.shot(t).Done? && c.clock(tick + t) < c.deadline)
    ensures !From(c, 0, Start(tick)).Measure?
  {
    Reaches(c, t, tick);
    FailedIsNotMeasured(c, t + 1, After(c, t, tick).(failed := true, tick := tick + t + 1));
  }

  lemma {:induction false} FirstUndone(c: Trials, n: nat, tick: nat) returns (t: nat)
    requires !AllDone(c, n, tick)
    ensures t < n && AllDone(c, t, tick) && !(c.shot(t).Done? && c.clock(tick + t) < c.deadline)
  {
    var u: nat :| u < n && !(c.shot(u).Done? && c.clock(tick + u) < c.deadline);
    if AllDone(c, u, tick) { t := u; } else { t := FirstUndone(c, u, tick); }
  }

  lemma {:induction false} FailedIsNotMeasured(c: Trials, t: nat, s: Tally)
    requires t <= 2 * c.n && s.failed
    ensures !From(c, t, s).Measure?
    decreases 2 * c.n - t
  {
    if t < 2 * c.n {
      if Challenges(t) {
        FailedIsNotMeasured(c, t + 1, s);
      } else if c.clock(s.tick) < c.deadline && c.shot(t).Done? {
        FailedIsNotMeasured(c, t + 1, Counted(s, t, c.shot(t).ms));
      }
    }
  }

  // ---- a trial cut short ---------------------------------------------------------------------------

  /** Trial t is the first that is not done: it ran and was cut short at the deadline. */
  predicate CutAt(c: Trials, t: nat, tick: nat)
  {
    t < 2 * c.n && AllDone(c, t, tick) && c.clock(tick + t) < c.deadline && c.shot(t).CutShort?
    && c.clock(tick + t + 1) >= c.deadline
  }

  /** The incumbent's trial cut short is an exception; the challenger's leaves it undecided exactly
      when another trial of the incumbent is to come, that is when it is not the last of all. The
      last of all is decided against, once the incumbent has its samples. */
  lemma CutShortIff(c: Trials, t: nat, tick: nat)
    requires CutAt(c, t, tick)
    ensures !Challenges(t) ==> From(c, 0, Start(tick)).Raises?
    ensures Challenges(t) ==> (From(c, 0, Start(tick)).OutOfTime? <==> t != 2 * c.n - 1)
    ensures Challenges(t) && t == 2 * c.n - 1
            ==> From(c, 0, Start(tick)) ==
                if |Known(Metrics(After(c, t, tick).base))| < c.n then Raises else TrialFailed
  {
    Reaches(c, t, tick);
    var s := After(c, t, tick).(failed := true, tick := tick + t + 1);
    if Challenges(t) && t + 1 < 2 * c.n {
      NextIncumbent(t, c.n);
      if Challenges(t + 1) { assert From(c, t + 1, s) == From(c, t + 2, s); }
    }
  }

  lemma NextIncumbent(t: nat, n: nat)
    requires Challenges(t) && t + 1 < 2 * n
    ensures !Challenges(t + 1) || (t + 2 < 2 * n && !Challenges(t + 2))
  {
    SlotOf(t / 2, t % 2);
    if t % 2 == 0 { SlotOf(t / 2, 1); } else {
      SlotOf(t / 2 + 1, 0);
      SlotOf(t / 2 + 1, 1);
    }
  }

  /** The last trial of all is the challenger's exactly when the number of rounds is odd. */
  lemma LastIsChallengers(n: nat)
    requires n >= 1
    ensures Challenges(2 * n - 1) <==> n % 2 == 1
  {
    SlotOf(n - 1, 1);
  }

  // ---- a run that decides on a trial cut short -------------------------------------------------------

  /** Every trial before t has the metric. */
  predicate AllMeasure(c: Trials, t: nat)
  {
    forall u: nat :: u < t ==> c.shot(u).Done? && c.shot(u).ms != [] && forall m <- c.shot(u).ms :: m.metric.Some?
  }

  function IncumbentTrials(t: nat): nat
  {
    if t == 0 then 0 else IncumbentTrials(t - 1) + if Challenges(t - 1) then 0 else 1
  }

  /** A round has one trial of each. */
  lemma RoundHasBoth(n: nat)
    ensures IncumbentTrials(2 * n + 2) == IncumbentTrials(2 * n) + 1
    ensures Challenges(2 * n + 1) ==> IncumbentTrials(2 * n + 1) == IncumbentTrials(2 * n) + 1
  {
    SlotOf(n, 0);
    SlotOf(n, 1);
  }

  lemma {:induction false} HalfAreIncumbents(n: nat)
    ensures IncumbentTrials(2 * n) == n
    ensures n >= 1 && Challenges(2 * n - 1) ==> IncumbentTrials(2 * n - 1) == n
  {
    if n > 0 {
      HalfAreIncumbents(n - 1);
      RoundHasBoth(n - 1);
      assert 2 * (n - 1) + 2 == 2 * n && 2 * (n - 1) + 1 == 2 * n - 1;
    }
  }

  lemma {:induction false} AllKnown(xs: seq<Option<real>>)
    requires forall x <- xs :: x.Some?
    ensures |Known(xs)| == |xs|
  {
    if xs != [] { AllKnown(xs[..|xs| - 1]); }
  }

  lemma {:induction false} OneEach(c: Trials, t: nat, tick: nat)
    requires AllDone(c, t, tick) && AllMeasure(c, t)
    ensures |After(c, t, tick).base| >= IncumbentTrials(t)
    ensures forall m <- After(c, t, tick).base :: m.metric.Some?
  {
    if t > 0 {
      OneEach(c, t - 1, tick);
      assert c.shot(t - 1).ms != [];
    }
  }

  /** With an odd number of rounds, all trials measured but the last, and that one cut short at the
      deadline, the challenger is decided against. */
  lemma LastTrialCutDecides(c: Trials, tick: nat)
    requires c.n % 2 == 1 && CutAt(c, 2 * c.n - 1, tick) && AllMeasure(c, 2 * c.n - 1)
    ensures From(c, 0, Start(tick)) == TrialFailed
  {
    var t := 2 * c.n - 1;
    LastIsChallengers(c.n);
    CutShortIff(c, t, tick);
    HalfAreIncumbents(c.n);
    OneEach(c, t, tick);
    AllKnown(Metrics(After(c, t, tick).base));
  }
}
