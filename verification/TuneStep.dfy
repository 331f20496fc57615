/** console/tune.py's incremental step: one bounded run screens the incumbent's untried neighbours or
    confirms a pending challenger, within what a deadline leaves of its budget. */
module TuneStep {
  import opened Wrappers
  import opened TuneGates
  import opened TuneConfirm

  /** A screening trial: its score (better is larger), or cut short at the budget deadline. */
  datatype Trial = Score(s: Option<real>) | Stopped

  /** A screener that waits for its confirmation. */
  datatype Pend = Pend(config: Config, gain: real, screenS: real)

  /** Everything a run depends on: the clock's readings in turn, each screening trial, and the trials
      in turn of each confirmation. */
  datatype Env = Env(clock: nat -> real, own: Trial, trial: Config -> Trial, shot: (Config, nat) -> Shot,
                     budgetS: real, criteria: Criteria)

  datatype Decision = Challenger | Incumbent | Pending | Budget | Converged

  /** decided is the challenger that a confirmation decided on, if one did. */
  datatype Outcome =
    | Raised
    | Step(decision: Decision, winner: Option<Config>, screened: seq<Config>, pending: Option<Pend>,
           decided: Option<Config>)

  function WorkS(e: Env): real
  {
    e.budgetS - if 0.2 * e.budgetS <= 120.0 then 0.2 * e.budgetS else 120.0
  }

  function ConfirmS(screenS: real, n: nat): real { (4 * n) as real * screenS }

  // ---- confirmation ------------------------------------------------------------------------------

  /** The confirmation of c, whose trials end at the run's deadline. */
  function TrialsOf(e: Env, c: Config): Trials
  {
    Trials(e.criteria.nConfirm, e.clock(0) + WorkS(e), e.clock, (t: nat) => e.shot(c, t))
  }

  predicate Sound(e: Env, v: Confirmation)
  {
    v.Measure? ==> e.criteria.nConfirm >= 1 && |v.m.base| >= e.criteria.nConfirm
  }

  /** What a run makes of a confirmation of p. */
  function Settled(e: Env, p: Pend, screened: seq<Config>, v: Confirmation): Outcome
    requires Sound(e, v)
  {
    match v
    case OutOfTime => Step(Budget, None, screened, Some(p), None)
    case Raises => Raised
    case TrialFailed => Step(Incumbent, None, screened, None, Some(p.config))
    case Measure(m) =>
      if Accepted(e.criteria, m, 1) then Step(Challenger, Some(p.config), screened, None, Some(p.config))
      else Step(Incumbent, None, screened, None, Some(p.config))
  }

  /** The confirmation of c that starts at a reading of the clock. */
  function VerdictOn(e: Env, c: Config, tick: nat): (v: Confirmation)
    ensures Sound(e, v)
  {
    MeasureIsEnough(TrialsOf(e, c), 0, Start(tick));
    From(TrialsOf(e, c), 0, Start(tick))
  }

  /** A confirmation accepted the challenger: it passed every gate as the only candidate. */
  predicate PassedAt(e: Env, c: Config, tick: nat)
  {
    VerdictOn(e, c, tick).Measure? && Accepted(e.criteria, VerdictOn(e, c, tick).m, 1)
  }

  ghost predicate PassedGates(e: Env, c: Config) { exists tick: nat :: PassedAt(e, c, tick) }

  // ---- screening ---------------------------------------------------------------------------------

  function Untried(nbrs: seq<Config>, tried: seq<Config>): (r: seq<Config>)
    ensures forall c :: c in r <==> c in nbrs && c !in tried
  {
    if nbrs == [] then []
    else if nbrs[|nbrs| - 1] in tried then Untried(nbrs[..|nbrs| - 1], tried)
    else Untried(nbrs[..|nbrs| - 1], tried) + [nbrs[|nbrs| - 1]]
  }

  predicate Beats(e: Env, own: real, s: real) { s > own + e.criteria.margin * Abs(own) }

  /** The better of the best screener so far and config c with score s; the first of equals stays. */
  function Better(e: Env, own: real, best: Option<Pend>, c: Config, s: real, trialS: real): Option<Pend>
    requires own != 0.0
  {
    var gain := (s - own) / Abs(own);
    if best.None? || gain > best.value.gain then Some(Pend(c, gain, trialS)) else best
  }

  /** The screening loop from neighbour i on: how many were screened, the best screener and the next
      reading of the clock, or an exception (a gain over an incumbent that scores 0 divides by it). */
  datatype Screening = Broke | Screened(n: nat, best: Option<Pend>, tick: nat)

  function Screen(e: Env, cands: seq<Config>, i: nat, tick: nat, trialS: real, until: real, own: real,
                  best: Option<Pend>): (r: Screening)
    requires i <= |cands|
    ensures r.Screened? ==> i <= r.n <= |cands|
    decreases |cands| - i
  {
    if i == |cands| then Screened(i, best, tick)
    else if e.clock(tick) + trialS > until then Screened(i, best, tick + 1)
    else
      var slowest := Larger(trialS, e.clock(tick + 2) - e.clock(tick + 1));
      match e.trial(cands[i])
      case Stopped => Screened(i, best, tick + 3)
      case Score(s) =>
        if s.None? || !Beats(e, own, s.value) then Screen(e, cands, i + 1, tick + 3, slowest, until, own, best)
        else if own == 0.0 then Broke
        else Screen(e, cands, i + 1, tick + 3, slowest, until, own, Better(e, own, best, cands[i], s.value, slowest))
  }

  predicate ConfirmNow(e: Env, pending: Option<Pend>, trialS: real)
  {
    pending.None? && ConfirmS(trialS, e.criteria.nConfirm) <= 0.75 * WorkS(e)
  }

  /** The slowest trial so far, the incumbent's own. */
  function OwnS(e: Env): real { Larger(e.clock(2) - e.clock(1), 0.000000001) }

  /** When screening ends: the deadline, less the time to confirm where this run confirms. */
  function Until(e: Env, pending: Option<Pend>): real
  {
    e.clock(0) + WorkS(e)
    - if ConfirmNow(e, pending, OwnS(e)) then ConfirmS(OwnS(e), e.criteria.nConfirm) else 0.0
  }

  // ---- one run -----------------------------------------------------------------------------------

  /** The run once its screening is over. */
  function AfterScreening(e: Env, cands: seq<Config>, r: Screening, confirmNow: bool): Outcome
    requires r.Screened? ==> r.n <= |cands|
  {
    match r
    case Broke => Raised
    case Screened(n, best, tick) =>
      if best.None? then Step(Incumbent, None, cands[..n], None, None)
      else if !confirmNow then Step(Pending, None, cands[..n], best, None)
      else Settled(e, best.value, cands[..n], VerdictOn(e, best.value.config, tick))
  }

  predicate ConfirmsFirst(e: Env, pending: Option<Pend>)
  {
    pending.Some? && ConfirmS(pending.value.screenS, e.criteria.nConfirm) <= WorkS(e)
  }

  predicate OwnFails(e: Env) { e.own.Stopped? || e.own.s.None? }

  /** incremental, as a function of the run's clock and trials. */
  function RunStep(e: Env, nbrs: seq<Config>, tried: seq<Config>, pending: Option<Pend>): Outcome
  {
    var cands := Untried(nbrs, tried);
    if ConfirmsFirst(e, pending) then Settled(e, pending.value, [], VerdictOn(e, pending.value.config, 1))
    else if cands == [] then
      if pending.Some? then Step(Pending, None, [], pending, None) else Step(Converged, None, [], None, None)
    else if OwnFails(e) then Raised
    else
      AfterScreening(e, cands, Screen(e, cands, 0, 3, OwnS(e), Until(e, pending), e.own.s.value, pending),
                     ConfirmNow(e, pending, OwnS(e)))
  }

  /** incremental: the confirmation of a waiting challenger, or the loop over the untried neighbours
      with the slowest trial and the best screener so far. */
  method Incremental(e: Env, nbrs: seq<Config>, tried: seq<Config>, pending: Option<Pend>) returns (r: Outcome)
    ensures r == RunStep(e, nbrs, tried, pending)
  {
    var cands := Untried(nbrs, tried);
    if ConfirmsFirst(e, pending) {
      r := ConfirmPend(e, pending.value, [], 1);
      return;
    }
    if cands == [] {
      return if pending.Some? then Step(Pending, None, [], pending, None) else Step(Converged, None, [], None, None);
    }
    if OwnFails(e) {
      return Raised;
    }
    var screening := ScreenAll(e, cands, OwnS(e), Until(e, pending), e.own.s.value, pending);
    if screening.Screened? && screening.best.Some? && ConfirmNow(e, pending, OwnS(e)) {
      r := ConfirmPend(e, screening.best.value, cands[..screening.n], screening.tick);
    } else {
      r := AfterScreening(e, cands, screening, ConfirmNow(e, pending, OwnS(e)));
    }
  }

  method ConfirmPend(e: Env, p: Pend, screened: seq<Config>, tick: nat) returns (r: Outcome)
    ensures r == Settled(e, p, screened, VerdictOn(e, p.config, tick))
  {
    var v := Confirm(TrialsOf(e, p.config), tick);
    assert v == VerdictOn(e, p.config, tick);
    r := Settled(e, p, screened, v);
  }

  method ScreenAll(e: Env, cands: seq<Config>, ownS: real, until: real, own: real, pending: Option<Pend>)
    returns (r: Screening)
    ensures r == Screen(e, cands, 0, 3, ownS, until, own, pending)
  {
    var best, i, tick, trialS := pending, 0, 3, ownS;
    while i < |cands|
      invariant 0 <= i <= |cands| && tick >= 0
      invariant Screen(e, cands, 0, 3, ownS, until, own, pending) == Screen(e, cands, i, tick, trialS, until, own, best)
      decreases |cands| - i
    {
      if e.clock(tick) + trialS > until {
        return Screened(i, best, tick + 1);
      }
      trialS := Larger(trialS, e.clock(tick + 2) - e.clock(tick + 1));
      var t := e.trial(cands[i]);
      if t.Stopped? {
        return Screened(i, best, tick + 3);
      }
      if t.s.Some? && Beats(e, own, t.s.value) {
        if own == 0.0 {
          return Broke;
        }
        best := Better(e, own, best, cands[i], t.s.value, trialS);
      }
      i, tick := i + 1, tick + 3;
    }
    r := Screened(i, best, tick);
  }

  // ---- one run's facts ---------------------------------------------------------------------------

  /** best gained more than before, and was screened among cands[i..n]. */
  predicate Overtakes(cands: seq<Config>, i: nat, n: nat, before: Option<Pend>, best: Option<Pend>)
    requires i <= n <= |cands|
  {
    best.Some? && best.value.config in cands[i..n] && (before.Some? ==> best.value.gain > before.value.gain)
  }

  lemma {:induction false} ScreenBest(e: Env, cands: seq<Config>, i: nat, tick: nat, trialS: real, until: real,
                                      own: real, best: Option<Pend>)
    requires i <= |cands|
    ensures var r := Screen(e, cands, i, tick, trialS, until, own, best);
            r.Screened? ==> r.best == best || Overtakes(cands, i, r.n, best, r.best)
    decreases |cands| - i
  {
    if i < |cands| && e.clock(tick) + trialS <= until && e.trial(cands[i]).Score? {
      var slowest := Larger(trialS, e.clock(tick + 2) - e.clock(tick + 1));
      var s := e.trial(cands[i]).s;
      if s.None? || !Beats(e, own, s.value) {
        ScreenBest(e, cands, i + 1, tick + 3, slowest, until, own, best);
      } else if own != 0.0 {
        ScreenBest(e, cands, i + 1, tick + 3, slowest, until, own, Better(e, own, best, cands[i], s.value, slowest));
      }
    }
  }

  /** The challenger decided or left waiting is the one that waited or was screened in this run. */
  predicate FromHere(screened: seq<Config>, pending: Option<Pend>, c: Config)
  {
    c in screened || (pending.Some? && pending.value.config == c)
  }

  /** The waiting challenger was decided, and no other; or it still waits, or gave way to one that
      gained more. */
  predicate Kept(p: Pend, r: Outcome)
    requires r.Step?
  {
    if r.decided.Some? then r.decided == Some(p.config)
    else r.pending.Some? && (r.pending.value == p || r.pending.value.gain > p.gain)
  }

  /** A winner is the challenger decided, and passed every gate; what is decided does not wait. */
  ghost predicate Decides(e: Env, pending: Option<Pend>, r: Outcome)
    requires r.Step?
  {
    && (r.decided.Some? ==> r.pending.None? && FromHere(r.screened, pending, r.decided.value))
    && (r.pending.Some? ==> r.pending == pending || r.pending.value.config in r.screened)
    && (r.decision.Challenger? <==> r.winner.Some?)
    && (r.winner.Some? ==> r.decided == r.winner && PassedGates(e, r.winner.value))
    && (pending.Some? ==> Kept(pending.value, r))
  }

  /** What any run that does not raise leaves: new neighbours screened, none of them tried before;
      decisions as above; it converges exactly when nothing waits and every neighbour was tried. */
  ghost predicate Sensible(e: Env, nbrs: seq<Config>, tried: seq<Config>, pending: Option<Pend>, r: Outcome)
  {
    r.Step? ==>
      && (forall c :: c in r.screened ==> c in nbrs && c !in tried)
      && Decides(e, pending, r)
      && (r.decision.Converged? <==> pending.None? && forall c :: c in nbrs ==> c in tried)
      && (r.decision.Converged? ==> r.pending.None?)
  }

  lemma SettledDecides(e: Env, pending: Option<Pend>, p: Pend, screened: seq<Config>, tick: nat)
    requires pending == Some(p) || (pending.None? && p.config in screened)
    ensures var r := Settled(e, p, screened, VerdictOn(e, p.config, tick));
            r.Step? ==> Decides(e, pending, r) && r.screened == screened && !r.decision.Converged?
  {
    if PassedAt(e, p.config, tick) { assert PassedGates(e, p.config); }
  }

  lemma ScreeningDecides(e: Env, cands: seq<Config>, pending: Option<Pend>, own: real)
    ensures var s := Screen(e, cands, 0, 3, OwnS(e), Until(e, pending), own, pending);
            var r := AfterScreening(e, cands, s, ConfirmNow(e, pending, OwnS(e)));
            r.Step? ==> Decides(e, pending, r) && !r.decision.Converged? && forall c :: c in r.screened ==> c in cands
  {
    ScreenBest(e, cands, 0, 3, OwnS(e), Until(e, pending), own, pending);
    var s := Screen(e, cands, 0, 3, OwnS(e), Until(e, pending), own, pending);
    if s.Screened? && s.best.Some? && ConfirmNow(e, pending, OwnS(e)) {
      SettledDecides(e, pending, s.best.value, cands[..s.n], s.tick);
    }
  }

  lemma StepIsSensible(e: Env, nbrs: seq<Config>, tried: seq<Config>, pending: Option<Pend>)
    ensures Sensible(e, nbrs, tried, pending, RunStep(e, nbrs, tried, pending))
  {
    var cands := Untried(nbrs, tried);
    if ConfirmsFirst(e, pending) {
      SettledDecides(e, pending, pending.value, [], 1);
    } else if cands != [] {
      assert cands[0] in cands;
      if !OwnFails(e) { ScreeningDecides(e, cands, pending, e.own.s.value); }
    }
  }

  /** Passing every gate means that every trial of every round ran and was done. */
  lemma PassedMeansMeasured(e: Env, c: Config) returns (tick: nat)
    requires PassedGates(e, c)
    ensures AllDone(TrialsOf(e, c), 2 * e.criteria.nConfirm, tick) && PassedAt(e, c, tick)
  {
    tick :| PassedAt(e, c, tick);
    MeasuredIff(TrialsOf(e, c), tick);
  }

  // ---- a confirmation cut short ------------------------------------------------------------------

  /** A confirmation cut short at trial t leaves its challenger waiting exactly when the trial is the
      challenger's and not the last of all. */
  lemma CutShortWaitsIff(e: Env, nbrs: seq<Config>, tried: seq<Config>, p: Pend, t: nat)
    requires ConfirmsFirst(e, Some(p)) && CutAt(TrialsOf(e, p.config), t, 1)
    ensures RunStep(e, nbrs, tried, Some(p)) == Step(Budget, None, [], Some(p), None)
            <==> Challenges(t) && t != 2 * e.criteria.nConfirm - 1
    ensures !Challenges(t) ==> RunStep(e, nbrs, tried, Some(p)).Raised?
  {
    CutShortIff(TrialsOf(e, p.config), t, 1);
  }

  /** With an odd number of rounds, a waiting challenger whose last trial is cut short at the deadline
      is decided against and no longer waits, though every trial before was measured. */
  lemma LastCutDropsTheWaiting(e: Env, nbrs: seq<Config>, tried: seq<Config>, p: Pend)
    requires ConfirmsFirst(e, Some(p)) && e.criteria.nConfirm % 2 == 1
    requires CutAt(TrialsOf(e, p.config), 2 * e.criteria.nConfirm - 1, 1)
    requires AllMeasure(TrialsOf(e, p.config), 2 * e.criteria.nConfirm - 1)
    ensures RunStep(e, nbrs, tried, Some(p)) == Step(Incumbent, None, [], None, Some(p.config))
  {
    LastTrialCutDecides(TrialsOf(e, p.config), 1);
  }

  /** Such a run, with the default five rounds and a budget of ten minutes. */
  lemma FiveRoundsDropTheWaiting(nbrs: seq<Config>, tried: seq<Config>, c: Config)
    ensures var criteria := Criteria(5, 0.05, 1.0, 0.05, 0.25, true, true, 1000000000.0);
            var e := Env(k => if k <= 10 then 0.0 else 600.0, Stopped, _ => Stopped,
                         (_, t) => if t == 9 then CutShort else Done([Sample(Some(1.0), None, None)]), 600.0, criteria);
            var p := Pend(c, 0.5, 20.0);
            RunStep(e, nbrs, tried, Some(p)) == Step(Incumbent, None, [], None, Some(c))
  {
    var criteria := Criteria(5, 0.05, 1.0, 0.05, 0.25, true, true, 1000000000.0);
    var e := Env(k => if k <= 10 then 0.0 else 600.0, Stopped, _ => Stopped,
                 (_, t) => if t == 9 then CutShort else Done([Sample(Some(1.0), None, None)]), 600.0, criteria);
    var p := Pend(c, 0.5, 20.0);
    assert WorkS(e) == 480.0 && ConfirmS(20.0, 5) == 400.0;
    LastCutDropsTheWaiting(e, nbrs, tried, p);
  }
}
