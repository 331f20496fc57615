/** The profile that console/tune.py's incremental step is stored in, and read back from by the next
    run. Over any number of runs nothing is decided twice and no challenger is lost unread. */
module TuneHistory {
  import opened Wrappers
  import opened TuneGates
  import opened TuneStep
  import TuneConfirm

  // ---- the profile ---------------------------------------------------------------------------------

  /** The stored profile: the tuned winner, if any, the neighbours screened per incumbent, and the
      challenger that waits, with the incumbent it challenges. */
  datatype Profile = Profile(objective: Option<nat>, winner: Option<Config>, screened: map<Config, seq<Config>>,
                             pending: Option<(Pend, Config)>)

  /** cmd_step: a profile tuned for another objective is not read; one that names none is. */
  function Resume(prev: Option<Profile>, objective: nat): Option<Profile>
  {
    if prev.Some? && prev.value.objective in {None, Some(objective)} then prev else None
  }

  function IncumbentOf(prev: Option<Profile>): Config
  {
    if prev.Some? && prev.value.winner.Some? then prev.value.winner.value else Baseline
  }

  function TriedOf(prev: Option<Profile>, inc: Config): seq<Config>
  {
    if prev.Some? && inc in prev.value.screened then prev.value.screened[inc] else []
  }

  function PendingOf(prev: Option<Profile>, inc: Config): Option<Pend>
  {
    if prev.Some? && prev.value.pending.Some? && prev.value.pending.value.1 == inc
    then Some(prev.value.pending.value.0) else None
  }

  /** done.append(k) for each new key. */
  function AddAll(done: seq<Config>, more: seq<Config>): (r: seq<Config>)
    ensures done <= r
    ensures forall c :: c in r <==> c in done || c in more
    ensures NoDuplicates(done) ==> NoDuplicates(r)
    decreases |more|
  {
    if more == [] then done
    else
      var r := AddAll(done, more[..|more| - 1]);
      if more[|more| - 1] in r then r else r + [more[|more| - 1]]
  }

  /** step_profile. */
  function StepProfile(prev: Option<Profile>, objective: nat, inc: Config, r: Outcome): Profile
    requires r.Step?
  {
    var screened := if prev.Some? then prev.value.screened else map[];
    var with := screened[inc := AddAll(TriedOf(prev, inc), r.screened)];
    var pending := if r.pending.Some? then Some((r.pending.value, inc)) else None;
    var was := if prev.Some? then prev.value.winner else None;
    if r.decision.Challenger? && r.winner.Some? then
      var w := r.winner.value;
      Profile(Some(objective), r.winner, if w in with then with else with[w := []], pending)
    else Profile(Some(objective), was, with, pending)
  }

  /** What a run needs from outside: the objective, the neighbours of every config, the trials. */
  datatype Run = Run(objective: nat, nbrs: Config -> seq<Config>, e: Env)

  function OutcomeOf(prev: Option<Profile>, run: Run): Outcome
  {
    var p := Resume(prev, run.objective);
    var inc := IncumbentOf(p);
    RunStep(run.e, run.nbrs(inc), TriedOf(p, inc), PendingOf(p, inc))
  }

  /** cmd_step: an exception leaves the stored profile as it was. */
  function Next(prev: Option<Profile>, run: Run): Option<Profile>
  {
    var p := Resume(prev, run.objective);
    var r := OutcomeOf(prev, run);
    if r.Raised? then prev else Some(StepProfile(p, run.objective, IncumbentOf(p), r))
  }

  /** The profile stored before run i, from what was stored first. */
  function StoredAt(first: Option<Profile>, runs: seq<Run>, i: nat): Option<Profile>
    requires i <= |runs|
  {
    if i == 0 then first else Next(StoredAt(first, runs, i - 1), runs[i - 1])
  }

  // ---- histories ------------------------------------------------------------------------------------------

  /** The profile after an outcome; an exception leaves it. */
  function Advance(p: Option<Profile>, objective: nat, r: Outcome): Option<Profile>
  {
    if r.Raised? then p else Some(StepProfile(p, objective, IncumbentOf(p), r))
  }

  /** Nothing screened and nothing waiting: no profile, or what a whole search wrote, with a winner or
      without. */
  ghost predicate Fresh(p: Option<Profile>) { p.Some? ==> p.value.screened == map[] && p.value.pending.None? }

  /** The profiles ps read before, between and after runs with outcomes rs, for one objective and one
      host (the same neighbours throughout), from a fresh one. */
  ghost predicate History(objective: nat, nbrs: Config -> seq<Config>, es: seq<Env>, ps: seq<Option<Profile>>,
                          rs: seq<Outcome>)
  {
    |es| == |rs| && |ps| == |rs| + 1 && Fresh(ps[0])
    && forall i :: 0 <= i < |rs| ==> Turn(objective, nbrs, es[i], ps[i], rs[i], ps[i + 1])
  }

  ghost predicate Turn(objective: nat, nbrs: Config -> seq<Config>, e: Env, p: Option<Profile>, r: Outcome,
                       q: Option<Profile>)
  {
    var inc := IncumbentOf(p);
    Sensible(e, nbrs(inc), TriedOf(p, inc), PendingOf(p, inc), r) && q == Advance(p, objective, r)
  }

  /** cmd_step is such a turn between what it reads and what the next run reads. */
  lemma RunIsTurn(prev: Option<Profile>, run: Run)
    ensures Turn(run.objective, run.nbrs, run.e, Resume(prev, run.objective), OutcomeOf(prev, run),
                 Resume(Next(prev, run), run.objective))
  {
    var p := Resume(prev, run.objective);
    var inc := IncumbentOf(p);
    StepIsSensible(run.e, run.nbrs(inc), TriedOf(p, inc), PendingOf(p, inc));
  }

  function Envs(runs: seq<Run>): (es: seq<Env>)
    ensures |es| == |runs| && forall i :: 0 <= i < |runs| ==> es[i] == runs[i].e
  {
    seq(|runs|, i requires 0 <= i < |runs| => runs[i].e)
  }

  /** The profiles that the runs read. */
  function Profiles(first: Option<Profile>, runs: seq<Run>, objective: nat): (ps: seq<Option<Profile>>)
    ensures |ps| == |runs| + 1
    ensures forall i :: 0 <= i <= |runs| ==> ps[i] == Resume(StoredAt(first, runs, i), objective)
  {
    seq(|runs| + 1, i requires 0 <= i <= |runs| => Resume(StoredAt(first, runs, i), objective))
  }

  function Outcomes(first: Option<Profile>, runs: seq<Run>): (rs: seq<Outcome>)
    ensures |rs| == |runs|
    ensures forall i :: 0 <= i < |runs| ==> rs[i] == OutcomeOf(StoredAt(first, runs, i), runs[i])
  {
    seq(|runs|, i requires 0 <= i < |runs| => OutcomeOf(StoredAt(first, runs, i), runs[i]))
  }

  /** Any sequence of runs of cmd_step with one objective on one host makes a history, from no
      profile, one for another objective, or one that a whole search wrote. */
  lemma RunsMakeHistory(first: Option<Profile>, runs: seq<Run>, objective: nat, nbrs: Config -> seq<Config>)
    requires forall i :: 0 <= i < |runs| ==> runs[i].objective == objective && runs[i].nbrs == nbrs
    requires Fresh(Resume(first, objective))
    ensures History(objective, nbrs, Envs(runs), Profiles(first, runs, objective), Outcomes(first, runs))
  {
    var es, ps, rs := Envs(runs), Profiles(first, runs, objective), Outcomes(first, runs);
    forall i: nat | i < |runs| ensures Turn(objective, nbrs, es[i], ps[i], rs[i], ps[i + 1]) {
      RunIsTurn(StoredAt(first, runs, i), runs[i]);
    }
  }

  // ---- over any history -------------------------------------------------------------------------------------

  ghost predicate Tidy(s: seq<Config>, nbrs: seq<Config>) { NoDuplicates(s) && forall c :: c in s ==> c in nbrs }

  ghost predicate AllTidy(p: Option<Profile>, nbrs: Config -> seq<Config>) { forall c :: Tidy(TriedOf(p, c), nbrs(c)) }

  ghost predicate Grows(p: Option<Profile>, q: Option<Profile>) { forall c :: TriedOf(p, c) <= TriedOf(q, c) }

  lemma AdvanceTried(objective: nat, p: Option<Profile>, r: Outcome, c: Config)
    requires r.Step?
    ensures TriedOf(Advance(p, objective, r), c) ==
            if c == IncumbentOf(p) then AddAll(TriedOf(p, c), r.screened) else TriedOf(p, c)
  {
  }

  lemma TurnGrows(objective: nat, nbrs: Config -> seq<Config>, e: Env, p: Option<Profile>, r: Outcome,
                  q: Option<Profile>)
    requires Turn(objective, nbrs, e, p, r, q)
    ensures Grows(p, q)
    ensures AllTidy(p, nbrs) ==> AllTidy(q, nbrs)
    ensures r.Step? ==> forall c :: c in r.screened ==> c in TriedOf(q, IncumbentOf(p))
  {
    if r.Step? {
      forall c ensures TriedOf(p, c) <= TriedOf(q, c) { AdvanceTried(objective, p, r, c); }
      AdvanceTried(objective, p, r, IncumbentOf(p));
      if AllTidy(p, nbrs) {
        forall c ensures Tidy(TriedOf(q, c), nbrs(c)) {
          AdvanceTried(objective, p, r, c);
          assert Tidy(TriedOf(p, c), nbrs(c));
        }
      }
    }
  }

  lemma GrowsOn(p: Option<Profile>, q: Option<Profile>, r: Option<Profile>)
    requires Grows(p, q) && Grows(q, r)
    ensures Grows(p, r)
  {
    forall c ensures TriedOf(p, c) <= TriedOf(r, c) {
      assert TriedOf(p, c) <= TriedOf(q, c) <= TriedOf(r, c);
    }
  }

  lemma FreshIsTidy(p: Option<Profile>, nbrs: Config -> seq<Config>)
    requires Fresh(p)
    ensures AllTidy(p, nbrs) && Grows(p, p)
  {
  }

  /** The list screened against an incumbent only grows, without duplicates, inside its neighbours. */
  lemma {:induction false} ScreenedGrows(objective: nat, nbrs: Config -> seq<Config>, es: seq<Env>,
                                         ps: seq<Option<Profile>>, rs: seq<Outcome>, i: nat, j: nat)
    requires History(objective, nbrs, es, ps, rs) && i <= j <= |rs|
    ensures Grows(ps[i], ps[j]) && AllTidy(ps[j], nbrs)
    decreases j
  {
    if j == 0 {
      FreshIsTidy(ps[0], nbrs);
    } else {
      ScreenedGrows(objective, nbrs, es, ps, rs, Min(i, j - 1), j - 1);
      TurnGrows(objective, nbrs, es[j - 1], ps[j - 1], rs[j - 1], ps[j]);
      if i < j { GrowsOn(ps[i], ps[j - 1], ps[j]); }
    }
  }

  /** The pair that an outcome decided on: the incumbent and its challenger. */
  function DecidedPair(p: Option<Profile>, r: Outcome): Option<(Config, Config)>
  {
    if r.Step? && r.decided.Some? then Some((IncumbentOf(p), r.decided.value)) else None
  }

  /** What was decided was screened. */
  ghost predicate DecidedAreTried(p: Option<Profile>, decided: set<(Config, Config)>)
  {
    forall pair :: pair in decided ==> pair.1 in TriedOf(p, pair.0)
  }

  /** What waits challenges the incumbent, was screened and is not decided. */
  ghost predicate WaitingIsOpen(p: Option<Profile>, decided: set<(Config, Config)>)
  {
    p.Some? && p.value.pending.Some? ==>
      var (w, inc) := p.value.pending.value;
      inc == IncumbentOf(p) && w.config in TriedOf(p, inc) && (inc, w.config) !in decided
  }

  ghost predicate Books(p: Option<Profile>, decided: set<(Config, Config)>)
  {
    DecidedAreTried(p, decided) && WaitingIsOpen(p, decided)
  }

  lemma FreshBooks(p: Option<Profile>)
    requires Fresh(p)
    ensures Books(p, {})
  {
  }

  /** What is decided after an outcome. */
  function Also(decided: set<(Config, Config)>, p: Option<Profile>, r: Outcome): set<(Config, Config)>
  {
    decided + match DecidedPair(p, r) case None => {} case Some(pair) => {pair}
  }

  /** The pairs decided in the first n runs. */
  function DecidedIn(ps: seq<Option<Profile>>, rs: seq<Outcome>, n: nat): set<(Config, Config)>
    requires n <= |rs| < |ps|
  {
    if n == 0 then {}
    else Also(DecidedIn(ps, rs, n - 1), ps[n - 1], rs[n - 1])
  }

  /** The challenger of a turn is new: screened just now, or waiting and so not decided yet. */
  lemma ChallengerIsOpen(objective: nat, nbrs: Config -> seq<Config>, e: Env, p: Option<Profile>, r: Outcome,
                         q: Option<Profile>, decided: set<(Config, Config)>, c: Config)
    requires Turn(objective, nbrs, e, p, r, q) && Books(p, decided)
    requires r.Step? && FromHere(r.screened, PendingOf(p, IncumbentOf(p)), c)
    ensures (IncumbentOf(p), c) !in decided
    ensures c in TriedOf(q, IncumbentOf(p))
  {
    TurnGrows(objective, nbrs, e, p, r, q);
    var pair := (IncumbentOf(p), c);
    assert pair in decided ==> pair.1 in TriedOf(p, pair.0);
  }

  lemma TurnKeepsBooks(objective: nat, nbrs: Config -> seq<Config>, e: Env, p: Option<Profile>, r: Outcome,
                       q: Option<Profile>, decided: set<(Config, Config)>)
    requires Turn(objective, nbrs, e, p, r, q) && Books(p, decided)
    ensures Books(q, Also(decided, p, r))
  {
    TurnGrows(objective, nbrs, e, p, r, q);
    if r.Step? {
      if r.decided.Some? { ChallengerIsOpen(objective, nbrs, e, p, r, q, decided, r.decided.value); }
      if r.pending.Some? { ChallengerIsOpen(objective, nbrs, e, p, r, q, decided, r.pending.value.config); }
      forall pair | pair in decided ensures pair.1 in TriedOf(q, pair.0) {
        assert TriedOf(p, pair.0) <= TriedOf(q, pair.0);
      }
    }
  }

  lemma {:induction false} BooksKept(objective: nat, nbrs: Config -> seq<Config>, es: seq<Env>,
                                     ps: seq<Option<Profile>>, rs: seq<Outcome>, n: nat)
    requires History(objective, nbrs, es, ps, rs) && n <= |rs|
    ensures Books(ps[n], DecidedIn(ps, rs, n))
  {
    if n == 0 {
      FreshBooks(ps[0]);
    } else {
      BooksKept(objective, nbrs, es, ps, rs, n - 1);
      TurnKeepsBooks(objective, nbrs, es[n - 1], ps[n - 1], rs[n - 1], ps[n], DecidedIn(ps, rs, n - 1));
    }
  }

  lemma {:induction false} DecidedInHas(ps: seq<Option<Profile>>, rs: seq<Outcome>, i: nat, n: nat)
    requires i < n <= |rs| < |ps| && DecidedPair(ps[i], rs[i]).Some?
    ensures DecidedPair(ps[i], rs[i]).value in DecidedIn(ps, rs, n)
    decreases n
  {
    if i < n - 1 { DecidedInHas(ps, rs, i, n - 1); }
  }

  /** Each pair of an incumbent and a challenger gets at most one decided confirmation. */
  lemma DecidedAtMostOnce(objective: nat, nbrs: Config -> seq<Config>, es: seq<Env>,
                          ps: seq<Option<Profile>>, rs: seq<Outcome>, i: nat, j: nat)
    requires History(objective, nbrs, es, ps, rs) && i < j < |rs| && DecidedPair(ps[i], rs[i]).Some?
    ensures DecidedPair(ps[j], rs[j]) != DecidedPair(ps[i], rs[i])
  {
    BooksKept(objective, nbrs, es, ps, rs, j);
    DecidedInHas(ps, rs, i, j);
    if DecidedPair(ps[j], rs[j]).Some? {
      ChallengerIsOpen(objective, nbrs, es[j], ps[j], rs[j], ps[j + 1], DecidedIn(ps, rs, j), rs[j].decided.value);
    }
  }

  /** The incumbent changes only to the challenger that this run decided on, after it passed every
      gate on trials of which every one ran and was done. */
  lemma IncumbentChanges(objective: nat, nbrs: Config -> seq<Config>, e: Env, p: Option<Profile>, r: Outcome,
                         q: Option<Profile>) returns (tick: nat)
    requires Turn(objective, nbrs, e, p, r, q) && IncumbentOf(q) != IncumbentOf(p)
    ensures DecidedPair(p, r) == Some((IncumbentOf(p), IncumbentOf(q))) && PassedAt(e, IncumbentOf(q), tick)
    ensures TuneConfirm.AllDone(TrialsOf(e, IncumbentOf(q)), 2 * e.criteria.nConfirm, tick)
  {
    tick := PassedMeansMeasured(e, r.winner.value);
  }

  /** So no history takes the same step from one incumbent to another twice. */
  lemma NoStepTwice(objective: nat, nbrs: Config -> seq<Config>, es: seq<Env>,
                    ps: seq<Option<Profile>>, rs: seq<Outcome>, i: nat, j: nat)
    requires History(objective, nbrs, es, ps, rs) && i < j < |rs|
    requires IncumbentOf(ps[i + 1]) != IncumbentOf(ps[i]) && IncumbentOf(ps[j]) == IncumbentOf(ps[i])
    ensures IncumbentOf(ps[j + 1]) != IncumbentOf(ps[i + 1])
  {
    var _ := IncumbentChanges(objective, nbrs, es[i], ps[i], rs[i], ps[i + 1]);
    if IncumbentOf(ps[j + 1]) != IncumbentOf(ps[j]) {
      var _ := IncumbentChanges(objective, nbrs, es[j], ps[j], rs[j], ps[j + 1]);
      DecidedAtMostOnce(objective, nbrs, es, ps, rs, i, j);
    }
  }

  /** The challenger that waits for the incumbent. */
  function WaitingIn(p: Option<Profile>): Option<Pend> { PendingOf(p, IncumbentOf(p)) }

  /** v is w, or gained more. */
  predicate AtLeast(w: Pend, v: Pend) { v == w || v.gain > w.gain }

  /** What waits in p, for incumbent inc, is w or gained more. */
  predicate StillWaits(p: Option<Profile>, inc: Config, w: Pend)
  {
    IncumbentOf(p) == inc && WaitingIn(p).Some? && AtLeast(w, WaitingIn(p).value)
  }

  /** The run decided on what waited, and that was w or gained more. */
  predicate GoesAt(p: Option<Profile>, r: Outcome, inc: Config, w: Pend)
  {
    StillWaits(p, inc, w) && DecidedPair(p, r) == Some((inc, WaitingIn(p).value.config))
  }

  lemma TurnKeepsWaiting(objective: nat, nbrs: Config -> seq<Config>, e: Env, p: Option<Profile>, r: Outcome,
                         q: Option<Profile>, inc: Config, w: Pend)
    requires Turn(objective, nbrs, e, p, r, q) && StillWaits(p, inc, w)
    ensures GoesAt(p, r, inc, w) || StillWaits(q, inc, w)
  {
    if r.Step? && r.decided.None? { assert r.winner.None?; }
  }

  /** Over any runs, a waiting challenger keeps waiting, or gives way to one that gained more and so on,
      until a run decides on the one that waits; nothing else takes it off, and until then the
      incumbent stays. */
  lemma {:induction false} WaitingIsKept(objective: nat, nbrs: Config -> seq<Config>, es: seq<Env>,
                                         ps: seq<Option<Profile>>, rs: seq<Outcome>, i: nat, j: nat, w: Pend)
    requires History(objective, nbrs, es, ps, rs) && i <= j <= |rs| && WaitingIn(ps[i]) == Some(w)
    ensures StillWaits(ps[j], IncumbentOf(ps[i]), w)
            || exists k :: i <= k < j && GoesAt(ps[k], rs[k], IncumbentOf(ps[i]), w)
    decreases j
  {
    if i < j {
      var inc := IncumbentOf(ps[i]);
      WaitingIsKept(objective, nbrs, es, ps, rs, i, j - 1, w);
      if StillWaits(ps[j - 1], inc, w) {
        TurnKeepsWaiting(objective, nbrs, es[j - 1], ps[j - 1], rs[j - 1], ps[j], inc, w);
      }
    }
  }

  /** A stored challenger always challenges the current incumbent, so it is never dropped unread. */
  lemma StoredMeansWaiting(objective: nat, nbrs: Config -> seq<Config>, es: seq<Env>,
                           ps: seq<Option<Profile>>, rs: seq<Outcome>, n: nat)
    requires History(objective, nbrs, es, ps, rs) && n <= |rs|
    ensures ps[n].Some? && ps[n].value.pending.Some? ==> WaitingIn(ps[n]) == Some(ps[n].value.pending.value.0)
  {
    BooksKept(objective, nbrs, es, ps, rs, n);
  }

  /** A run converges exactly when nothing waits and every neighbour was screened; it then changes
      neither the incumbent nor any list, so the next one converges too. */
  lemma ConvergedStays(objective: nat, nbrs: Config -> seq<Config>, e: Env, p: Option<Profile>, r: Outcome,
                       q: Option<Profile>, e': Env)
    requires Turn(objective, nbrs, e, p, r, q) && r.Step? && r.decision.Converged?
    ensures forall c :: c in nbrs(IncumbentOf(p)) ==> c in TriedOf(p, IncumbentOf(p))
    ensures IncumbentOf(q) == IncumbentOf(p)
    ensures forall c :: c in TriedOf(p, IncumbentOf(p)) ==> c in TriedOf(q, IncumbentOf(q))
    ensures var again := RunStep(e', nbrs(IncumbentOf(q)), TriedOf(q, IncumbentOf(q)), PendingOf(q, IncumbentOf(q)));
            again.Step? && again.decision.Converged?
  {
    TurnGrows(objective, nbrs, e, p, r, q);
    assert TriedOf(p, IncumbentOf(p)) <= TriedOf(q, IncumbentOf(p));
    var cands := Untried(nbrs(IncumbentOf(q)), TriedOf(q, IncumbentOf(q)));
    if cands != [] { assert cands[0] in cands; }
  }
}
