/** Whether a run of console/tune.py's incremental step gets anything done. Its documentation says
    that every run makes progress; the proofs say which do, and how many can. */
module TuneProgress {
  import opened Wrappers
  import opened TuneGates
  import opened TuneStep
  import opened TuneHistory
  import TuneConfirm

  /** The run screened a neighbour or decided on a challenger. */
  predicate Progress(r: Outcome) { r.Step? && (r.screened != [] || r.decided.Some?) }

  // ---- one run -----------------------------------------------------------------------------------

  /** There is time for one trial more, as slow as the incumbent's own. */
  predicate RoomForOne(e: Env, pending: Option<Pend>) { e.clock(3) + OwnS(e) <= Until(e, pending) }

  /** The first untried neighbour is screened, and not cut short. */
  predicate FirstIsScreened(e: Env, cands: seq<Config>, pending: Option<Pend>)
  {
    cands != [] && RoomForOne(e, pending) && e.trial(cands[0]).Score?
  }

  lemma ScreensIff(e: Env, cands: seq<Config>, pending: Option<Pend>, own: real)
    ensures var s := Screen(e, cands, 0, 3, OwnS(e), Until(e, pending), own, pending);
            s.Screened? ==> (s.n >= 1 <==> FirstIsScreened(e, cands, pending)) && (s.n == 0 ==> s.best == pending)
  {
  }

  /** A run that raises gets nothing done. Any other does exactly when the confirmation it starts with
      is not cut short or, where it starts with none, its first untried neighbour is screened. */
  lemma ProgressIff(e: Env, nbrs: seq<Config>, tried: seq<Config>, pending: Option<Pend>)
    ensures var r := RunStep(e, nbrs, tried, pending);
            Progress(r) <==>
            r.Step? && if ConfirmsFirst(e, pending) then !VerdictOn(e, pending.value.config, 1).OutOfTime?
                       else FirstIsScreened(e, Untried(nbrs, tried), pending)
  {
    if !OwnFails(e) { ScreensIff(e, Untried(nbrs, tried), pending, e.own.s.value); }
  }

  lemma EightTrials(trialS: real, n: nat)
    requires n >= 2 && trialS >= 0.0
    ensures ConfirmS(trialS, n) >= 8.0 * trialS
  {
    var trials := (4 * n) as real;
    assert (trials - 8.0) * trialS >= 0.0;
  }

  /** Where nothing but trials takes time and there are two rounds or more, there is room for the first
      neighbour exactly when the incumbent's trial takes at most half of the working time. */
  lemma RoomIff(e: Env, pending: Option<Pend>)
    requires e.clock(1) == e.clock(0) && e.clock(3) == e.clock(2) && e.clock(2) - e.clock(1) >= 0.000000001
    requires e.criteria.nConfirm >= 2
    ensures RoomForOne(e, pending) <==> OwnS(e) <= WorkS(e) / 2.0
  {
    EightTrials(OwnS(e), e.criteria.nConfirm);
  }

  /** The default five rounds and a budget of ten minutes, of which the incumbent's trial takes five. */
  function SlowEnv(): Env
  {
    Env(k => if k <= 1 then 0.0 else 300.0, Score(Some(1.0)), _ => Score(None), (_, _) => TuneConfirm.Failed, 600.0,
        Criteria(5, 0.05, 1.0, 0.05, 0.25, true, true, 1000000000.0))
  }

  /** Such a run gets nothing done, whatever is left to try, with a challenger that takes as long or
      with none. */
  lemma SlowRunStalls(nbrs: seq<Config>, tried: seq<Config>, pending: Option<Pend>)
    requires Untried(nbrs, tried) != [] && (pending.Some? ==> pending.value.screenS >= 300.0)
    ensures RunStep(SlowEnv(), nbrs, tried, pending) ==
            Step(if pending.Some? then Pending else Incumbent, None, [], pending, None)
  {
    var e := SlowEnv();
    assert WorkS(e) == 480.0 && OwnS(e) == 300.0;
    assert pending.Some? ==> !ConfirmsFirst(e, pending);
    assert !RoomForOne(e, pending);
  }

  // ---- over the runs -------------------------------------------------------------------------------

  /** The next run reads what this one read. */
  ghost predicate SameState(p: Option<Profile>, q: Option<Profile>)
  {
    IncumbentOf(q) == IncumbentOf(p) && WaitingIn(q) == WaitingIn(p) && forall c :: TriedOf(q, c) == TriedOf(p, c)
  }

  /** A run that gets nothing done leaves everything as it was. */
  lemma StallKeepsState(objective: nat, nbrs: Config -> seq<Config>, e: Env, p: Option<Profile>, r: Outcome,
                        q: Option<Profile>)
    requires Turn(objective, nbrs, e, p, r, q) && !Progress(r)
    ensures SameState(p, q)
  {
    if r.Step? {
      assert r.pending == PendingOf(p, IncumbentOf(p)) && r.winner.None?;
      forall c ensures TriedOf(q, c) == TriedOf(p, c) { AdvanceTried(objective, p, r, c); }
    }
  }

  /** What a run does depends on no more of the profile than that. */
  lemma SameOutcome(prev: Option<Profile>, later: Option<Profile>, run: Run)
    requires SameState(Resume(prev, run.objective), Resume(later, run.objective))
    ensures OutcomeOf(later, run) == OutcomeOf(prev, run)
  {
  }

  /** The run does r from this profile, and that gets nothing done. */
  predicate Stalls(prev: Option<Profile>, run: Run, r: Outcome) { OutcomeOf(prev, run) == r && !Progress(r) }

  lemma StallsAgain(prev: Option<Profile>, run: Run, r: Outcome)
    requires Stalls(prev, run, r)
    ensures Stalls(Next(prev, run), run, r)
  {
    RunIsTurn(prev, run);
    StallKeepsState(run.objective, run.nbrs, run.e, Resume(prev, run.objective), r,
                    Resume(Next(prev, run), run.objective));
    SameOutcome(prev, Next(prev, run), run);
  }

  function Iterate<T>(f: T -> T, x: T, n: nat): T { if n == 0 then x else f(Iterate(f, x, n - 1)) }

  lemma {:induction false} Lasts<T>(f: T -> T, good: T -> bool, x: T, n: nat)
    requires good(x) && forall y :: good(y) ==> good(f(y))
    ensures good(Iterate(f, x, n))
  {
    if n > 0 { Lasts(f, good, x, n - 1); }
  }

  /** What is stored once the same run was made n times. */
  function Repeated(first: Option<Profile>, run: Run, n: nat): Option<Profile> { Iterate(p => Next(p, run), first, n) }

  /** So it goes on: the same run again, however often, gets nothing done. */
  lemma StallRepeats(first: Option<Profile>, run: Run, n: nat, r: Outcome)
    requires Stalls(first, run, r)
    ensures Stalls(Repeated(first, run, n), run, r)
  {
    var next, stalls := (p: Option<Profile>) => Next(p, run), (p: Option<Profile>) => Stalls(p, run, r);
    forall p | stalls(p) ensures stalls(next(p)) { StallsAgain(p, run, r); }
    Lasts(next, stalls, first, n);
  }

  /** The slow run, however often it is made, never gets anything done, from any profile whose
      challenger, if one waits, takes as long. */
  lemma SlowRunsNeverEnd(first: Option<Profile>, run: Run, n: nat)
    requires run.e == SlowEnv()
    requires var p := Resume(first, run.objective);
             Untried(run.nbrs(IncumbentOf(p)), TriedOf(p, IncumbentOf(p))) != []
             && (WaitingIn(p).Some? ==> WaitingIn(p).value.screenS >= 300.0)
    ensures !Progress(OutcomeOf(Repeated(first, run, n), run))
  {
    var p := Resume(first, run.objective);
    SlowRunStalls(run.nbrs(IncumbentOf(p)), TriedOf(p, IncumbentOf(p)), WaitingIn(p));
    StallRepeats(first, run, n, OutcomeOf(first, run));
  }

  // ---- how many runs get something done --------------------------------------------------------------

  /** Which runs got something done with inc as the incumbent. */
  function Hits(ps: seq<Option<Profile>>, rs: seq<Outcome>, inc: Config): (hits: seq<bool>)
    requires |rs| < |ps|
    ensures |hits| == |rs|
    ensures forall i :: 0 <= i < |rs| ==> (hits[i] <==> IncumbentOf(ps[i]) == inc && Progress(rs[i]))
  {
    seq(|rs|, i requires 0 <= i < |rs| => IncumbentOf(ps[i]) == inc && Progress(rs[i]))
  }

  function Count(hits: seq<bool>): nat
  {
    if hits == [] then 0 else Count(hits[..|hits| - 1]) + if hits[|hits| - 1] then 1 else 0
  }

  /** What grows with every hit and never shrinks bounds their number. */
  lemma {:induction false} HitsGrow(hits: seq<bool>, m: seq<nat>)
    requires |m| == |hits| + 1
    requires forall i :: 0 <= i < |hits| ==> m[i] + (if hits[i] then 1 else 0) <= m[i + 1]
    ensures Count(hits) <= m[|hits|]
  {
    if hits != [] { HitsGrow(hits[..|hits| - 1], m[..|hits|]); }
  }

  /** The challengers of inc in a set of decided pairs. */
  function Against(inc: Config, decided: set<(Config, Config)>): (r: set<Config>)
    ensures forall c :: c in r <==> (inc, c) in decided
  {
    set pair | pair in decided && pair.0 == inc :: pair.1
  }

  lemma SubsetSize(x: set<Config>, y: set<Config>)
    requires x <= y
    ensures |x| <= |y|
    ensures x != y ==> |x| < |y|
  {
    assert y == x + (y - x);
  }

  function Members(s: seq<Config>): (r: set<Config>)
    ensures forall c :: c in r <==> c in s
  {
    set c | c in s
  }

  lemma {:induction false} MembersSize(s: seq<Config>)
    ensures |Members(s)| <= |s|
    ensures NoDuplicates(s) ==> |Members(s)| == |s|
  {
    if s != [] {
      var init, last := s[..|s| - 1], s[|s| - 1];
      MembersSize(init);
      assert Members(s) == Members(init) + {last};
    }
  }

  /** What a run gets done is new: a neighbour never tried before, or a challenger never decided on. */
  lemma ProgressIsNew(objective: nat, nbrs: Config -> seq<Config>, e: Env, p: Option<Profile>, r: Outcome,
                      q: Option<Profile>, decided: set<(Config, Config)>)
    requires Turn(objective, nbrs, e, p, r, q) && Books(p, decided) && Progress(r)
    ensures var inc := IncumbentOf(p);
            |TriedOf(p, inc)| + |Against(inc, decided)| < |TriedOf(q, inc)| + |Against(inc, Also(decided, p, r))|
  {
    var inc := IncumbentOf(p);
    TurnGrows(objective, nbrs, e, p, r, q);
    assert TriedOf(p, inc) <= TriedOf(q, inc);
    SubsetSize(Against(inc, decided), Against(inc, Also(decided, p, r)));
    if r.screened != [] {
      var c := r.screened[0];
      assert c in r.screened;
      assert c in TriedOf(q, inc) && c !in TriedOf(p, inc);
    } else {
      ChallengerIsOpen(objective, nbrs, e, p, r, q, decided, r.decided.value);
      assert r.decided.value in Against(inc, Also(decided, p, r)) && r.decided.value !in Against(inc, decided);
    }
  }

  lemma TurnCounts(objective: nat, nbrs: Config -> seq<Config>, e: Env, p: Option<Profile>, r: Outcome,
                   q: Option<Profile>, decided: set<(Config, Config)>, inc: Config)
    requires Turn(objective, nbrs, e, p, r, q) && Books(p, decided)
    ensures |TriedOf(p, inc)| + |Against(inc, decided)| + (if IncumbentOf(p) == inc && Progress(r) then 1 else 0)
            <= |TriedOf(q, inc)| + |Against(inc, Also(decided, p, r))|
  {
    if IncumbentOf(p) == inc && Progress(r) {
      ProgressIsNew(objective, nbrs, e, p, r, q, decided);
    } else {
      TurnGrows(objective, nbrs, e, p, r, q);
      assert TriedOf(p, inc) <= TriedOf(q, inc);
      SubsetSize(Against(inc, decided), Against(inc, Also(decided, p, r)));
    }
  }

  /** How much of inc's neighbours is screened, and decided on, before run i. */
  function Done(ps: seq<Option<Profile>>, rs: seq<Outcome>, inc: Config, i: nat): nat
    requires i <= |rs| < |ps|
  {
    |TriedOf(ps[i], inc)| + |Against(inc, DecidedIn(ps, rs, i))|
  }

  function Dones(ps: seq<Option<Profile>>, rs: seq<Outcome>, inc: Config): (m: seq<nat>)
    requires |rs| < |ps|
    ensures |m| == |rs| + 1 && forall i :: 0 <= i <= |rs| ==> m[i] == Done(ps, rs, inc, i)
  {
    seq(|rs| + 1, i requires 0 <= i <= |rs| => Done(ps, rs, inc, i))
  }

  lemma RunCounts(objective: nat, nbrs: Config -> seq<Config>, es: seq<Env>, ps: seq<Option<Profile>>,
                  rs: seq<Outcome>, inc: Config, i: nat)
    requires History(objective, nbrs, es, ps, rs) && i < |rs|
    ensures Dones(ps, rs, inc)[i] + (if Hits(ps, rs, inc)[i] then 1 else 0) <= Dones(ps, rs, inc)[i + 1]
  {
    BooksKept(objective, nbrs, es, ps, rs, i);
    TurnCounts(objective, nbrs, es[i], ps[i], rs[i], ps[i + 1], DecidedIn(ps, rs, i), inc);
  }

  lemma DoneIsBounded(objective: nat, nbrs: Config -> seq<Config>, es: seq<Env>, ps: seq<Option<Profile>>,
                      rs: seq<Outcome>, inc: Config, n: nat)
    requires History(objective, nbrs, es, ps, rs) && n <= |rs|
    ensures Done(ps, rs, inc, n) <= 2 * |nbrs(inc)|
  {
    var tried, decided := TriedOf(ps[n], inc), DecidedIn(ps, rs, n);
    ScreenedGrows(objective, nbrs, es, ps, rs, n, n);
    BooksKept(objective, nbrs, es, ps, rs, n);
    assert Tidy(tried, nbrs(inc));
    MembersSize(tried);
    MembersSize(nbrs(inc));
    SubsetSize(Members(tried), Members(nbrs(inc)));
    forall c | c in Against(inc, decided) ensures c in Members(tried) {
      var pair := (inc, c);
      assert pair in decided;
    }
    SubsetSize(Against(inc, decided), Members(tried));
  }

  /** Over any runs, at most two per neighbour of an incumbent get something done against it: one that
      screens the neighbour and one that decides on it. */
  lemma ProgressIsBounded(objective: nat, nbrs: Config -> seq<Config>, es: seq<Env>,
                          ps: seq<Option<Profile>>, rs: seq<Outcome>, inc: Config)
    requires History(objective, nbrs, es, ps, rs)
    ensures Count(Hits(ps, rs, inc)) <= 2 * |nbrs(inc)|
  {
    var hits, m := Hits(ps, rs, inc), Dones(ps, rs, inc);
    forall i: nat | i < |rs| ensures m[i] + (if hits[i] then 1 else 0) <= m[i + 1] {
      RunCounts(objective, nbrs, es, ps, rs, inc, i);
    }
    HitsGrow(hits, m);
    DoneIsBounded(objective, nbrs, es, ps, rs, inc, |rs|);
  }
}
