/** console/fit.py's memory guard: guard_step as a transition function, and what every run of it
    keeps. */
module Guard {
  import opened Wrappers

  /** A sample's readings; a missing PSI reading counts as 0. */
  datatype Sample = Sample(some10: Option<real>, some60: Option<real>, full10: Option<real>, memAvailable: Option<nat>)

  /** The fit's guard block: last is the index of its lowest rung, hostKv whether the KV cache is in
      host RAM (placement cpu). */
  datatype Config = Config(last: nat, hostKv: bool, hostBytes: nat, memFloor: nat, someAvg10: real, fullAvg10: real,
                           calmSomeAvg60: real, calmSamples: nat, emergencySamples: nat, cooldown: nat)

  datatype State = State(rung: int, calm: nat, hot: nat, cool: nat)

  datatype Action = Hold | Down | Up | Stop

  const Start := State(0, 0, 0, 0)

  function Reading(r: Option<real>): real { match r case None => 0.0 case Some(v) => v }

  function Clamp(rung: int, last: nat): nat { if rung < 0 then 0 else if rung > last then last else rung }

  /** Stopping the server would free host RAM worth having: its KV is there, or enough other bytes. */
  predicate Sheddable(g: Config) { g.hostKv || g.hostBytes >= g.memFloor }

  predicate Emergency(g: Config, x: Sample)
  {
    Reading(x.full10) >= g.fullAvg10 || (x.memAvailable.Some? && x.memAvailable.value < g.memFloor)
  }

  predicate Pressure(g: Config, x: Sample) { Reading(x.some10) >= g.someAvg10 }

  predicate Calm(g: Config, x: Sample)
  {
    !Emergency(g, x) && !Pressure(g, x) && Reading(x.some60) < g.calmSomeAvg60
  }

  /** guard_step. */
  function Step(g: Config, x: Sample, s: State): (Action, State)
  {
    var rung := Clamp(s.rung, g.last);
    if s.cool > 0 then
      var hot := if Emergency(g, x) then s.hot + 1 else 0;
      if Emergency(g, x) && Sheddable(g) && rung == g.last && hot >= g.emergencySamples
      then (Stop, State(rung, 0, hot, 0))
      else (Hold, State(rung, 0, hot, s.cool - 1))
    else if Emergency(g, x) then
      var hot := s.hot + 1;
      if g.hostKv && rung < g.last then (Down, State(g.last, 0, hot, g.cooldown))
      else if !Sheddable(g) then (Hold, State(rung, 0, hot, 0))
      else if hot >= g.emergencySamples || g.hostKv then (Stop, State(rung, 0, hot, 0))
      else (Hold, State(rung, 0, hot, 0))
    else if Pressure(g, x) then
      if !g.hostKv || rung >= g.last then (Hold, State(rung, 0, 0, 0))
      else (Down, State(rung + 1, 0, 0, g.cooldown))
    else if Reading(x.some60) < g.calmSomeAvg60 then
      if rung > 0 && s.calm + 1 >= g.calmSamples then (Up, State(rung - 1, 0, 0, g.cooldown))
      else (Hold, State(rung, s.calm + 1, 0, 0))
    else (Hold, State(rung, 0, 0, 0))
  }

  // ---- runs --------------------------------------------------------------------------------------------

  /** The state before sample i of a run from s. */
  function StateAt(g: Config, xs: seq<Sample>, s: State, i: nat): State
    requires i <= |xs|
  {
    if i == 0 then s else Step(g, xs[i - 1], StateAt(g, xs, s, i - 1)).1
  }

  function ActionAt(g: Config, xs: seq<Sample>, s: State, i: nat): Action
    requires i < |xs|
  {
    Step(g, xs[i], StateAt(g, xs, s, i)).0
  }

  predicate IsMove(a: Action) { a.Down? || a.Up? }

  /** No stop among the first n samples: a run ends at its stop. */
  ghost predicate Running(g: Config, xs: seq<Sample>, s: State, n: nat)
    requires n <= |xs|
  {
    forall i :: 0 <= i < n ==> !ActionAt(g, xs, s, i).Stop?
  }

  /** What every reachable state satisfies. */
  predicate Inv(g: Config, s: State)
  {
    0 <= s.rung <= g.last && s.cool <= g.cooldown && (s.cool > 0 ==> s.calm == 0)
    && (s.rung > 0 ==> s.calm == 0 || s.calm < g.calmSamples)
    && (!g.hostKv ==> s.rung == 0 && s.cool == 0)
  }

  lemma StepKeepsInv(g: Config, x: Sample, s: State)
    requires Inv(g, s)
    ensures Inv(g, Step(g, x, s).1)
  {
  }

  lemma {:induction false} InvAlways(g: Config, xs: seq<Sample>, s: State, i: nat)
    requires Inv(g, s) && i <= |xs|
    ensures Inv(g, StateAt(g, xs, s, i))
  {
    if i > 0 {
      InvAlways(g, xs, s, i - 1);
      StepKeepsInv(g, xs[i - 1], StateAt(g, xs, s, i - 1));
    }
  }

  // ---- stops -------------------------------------------------------------------------------------------

  /** Emergencies in a row that end just before sample i. */
  function Streak(g: Config, xs: seq<Sample>, i: nat): nat
    requires i <= |xs|
  {
    if i == 0 || !Emergency(g, xs[i - 1]) then 0 else 1 + Streak(g, xs, i - 1)
  }

  /** hot is exactly the length of the current streak, through cooldowns and moves. */
  lemma {:induction false} HotIsStreak(g: Config, xs: seq<Sample>, i: nat)
    requires i <= |xs|
    ensures StateAt(g, xs, Start, i).hot == Streak(g, xs, i)
  {
    if i > 0 { HotIsStreak(g, xs, i - 1); }
  }

  /** When a run stops, for each kind of server: a host-KV server only at the lowest rung, at once
      outside a cooldown or after enough emergencies inside one; a VRAM-KV server after enough
      emergencies in a row, and only if it holds enough host RAM. */
  lemma StopIff(g: Config, xs: seq<Sample>, i: nat)
    requires i < |xs|
    ensures var s := StateAt(g, xs, Start, i);
            var streak := Streak(g, xs, i + 1);
            ActionAt(g, xs, Start, i).Stop? <==>
              Emergency(g, xs[i])
              && if g.hostKv then s.rung == g.last && (s.cool == 0 || streak >= g.emergencySamples)
                 else g.hostBytes >= g.memFloor && streak >= g.emergencySamples
  {
    HotIsStreak(g, xs, i);
    InvAlways(g, xs, Start, i);
  }

  /** A VRAM-KV server never leaves rung 0. */
  lemma VramStaysAtTop(g: Config, xs: seq<Sample>, i: nat)
    requires !g.hostKv && i <= |xs|
    ensures StateAt(g, xs, Start, i).rung == 0
    ensures i < |xs| ==> !IsMove(ActionAt(g, xs, Start, i))
  {
    InvAlways(g, xs, Start, i);
  }

  // ---- moves are spaced ----------------------------------------------------------------------------------

  /** Between a move at i and sample m the cooldown has lost at most one per sample. */
  lemma {:induction false} CoolAfterMove(g: Config, xs: seq<Sample>, s: State, i: nat, m: nat)
    requires i < m <= |xs| && Running(g, xs, s, m) && IsMove(ActionAt(g, xs, s, i))
    ensures StateAt(g, xs, s, m).cool >= g.cooldown - (m - i - 1)
    decreases m - i
  {
    if m > i + 1 {
      CoolAfterMove(g, xs, s, i, m - 1);
      assert !ActionAt(g, xs, s, m - 1).Stop?;
    }
  }

  /** Two moves are separated by at least cooldown_samples samples that do not move. */
  lemma MovesAreSpaced(g: Config, xs: seq<Sample>, s: State, i: nat, j: nat)
    requires i < j < |xs| && Running(g, xs, s, j)
    requires IsMove(ActionAt(g, xs, s, i)) && IsMove(ActionAt(g, xs, s, j))
    ensures j - i > g.cooldown
  {
    CoolAfterMove(g, xs, s, i, j);
  }

  /** Which samples of a run move. */
  function MoveFlags(g: Config, xs: seq<Sample>, s: State): (f: seq<bool>)
    ensures |f| == |xs|
    ensures forall i :: 0 <= i < |xs| ==> f[i] == IsMove(ActionAt(g, xs, s, i))
  {
    seq(|xs|, i requires 0 <= i < |xs| => IsMove(ActionAt(g, xs, s, i)))
  }

  /** Flags set among a, a+1, ..., b-1. */
  function CountSet(f: seq<bool>, a: nat, b: nat): nat
    requires a <= b <= |f|
    decreases b - a
  {
    if a == b then 0 else CountSet(f, a, b - 1) + if f[b - 1] then 1 else 0
  }

  /** n times k, added up. */
  function Laps(n: nat, k: nat): nat { if n == 0 then 0 else Laps(n - 1, k) + k }

  lemma {:induction false} LapsIsProduct(n: nat, k: nat)
    ensures Laps(n, k) == n * k
  {
    if n > 0 { LapsIsProduct(n - 1, k); }
  }

  ghost predicate Spaced(f: seq<bool>, n: nat, gap: nat)
    requires n <= |f|
  {
    forall i, j :: 0 <= i < j < n && f[i] && f[j] ==> j - i >= gap
  }

  /** The last flag p of a window comes after all the gaps between the others. */
  lemma {:induction false} LastSet(f: seq<bool>, gap: nat, a: nat, b: nat) returns (p: nat)
    requires a <= b <= |f| && Spaced(f, b, gap) && CountSet(f, a, b) > 0
    ensures a <= p < b && f[p] && Laps(CountSet(f, a, b) - 1, gap) <= p - a
    decreases b - a
  {
    if f[b - 1] {
      p := b - 1;
      if CountSet(f, a, b - 1) > 0 { var q := LastSet(f, gap, a, b - 1); }
    } else {
      p := LastSet(f, gap, a, b - 1);
    }
  }

  /** Moves among samples a, a+1, ..., b-1. */
  function Moves(g: Config, xs: seq<Sample>, s: State, a: nat, b: nat): nat
    requires a <= b <= |xs|
  {
    CountSet(MoveFlags(g, xs, s), a, b)
  }

  /** A window of L samples holds at most ceil(L / (cooldown_samples + 1)) moves. */
  lemma MovesBound(g: Config, xs: seq<Sample>, s: State, a: nat, b: nat)
    requires a <= b <= |xs| && Running(g, xs, s, b)
    ensures Moves(g, xs, s, a, b) <= (b - a + g.cooldown) / (g.cooldown + 1)
  {
    var f := MoveFlags(g, xs, s);
    forall i, j | 0 <= i < j < b && f[i] && f[j] ensures j - i >= g.cooldown + 1 {
      MovesAreSpaced(g, xs, s, i, j);
    }
    WindowBound(f, g.cooldown, a, b);
  }

  lemma WindowBound(f: seq<bool>, cooldown: nat, a: nat, b: nat)
    requires a <= b <= |f| && Spaced(f, b, cooldown + 1)
    ensures CountSet(f, a, b) <= (b - a + cooldown) / (cooldown + 1)
  {
    var n := CountSet(f, a, b);
    if n > 0 {
      var p := LastSet(f, cooldown + 1, a, b);
      LapsIsProduct(n, cooldown + 1);
      DivAtLeast(b - a + cooldown, cooldown + 1, n);
    }
  }

  lemma DivAtLeast(x: nat, d: nat, m: nat)
    requires d > 0 && m * d <= x
    ensures m <= x / d
  {
    var q := x / d;
    assert x == q * d + x % d && (q + 1) * d == q * d + d;
    if q < m { MulMono(q + 1, m, d); }
  }

  lemma {:induction false} MulMono(m: nat, n: nat, d: nat)
    requires m <= n
    ensures m * d <= n * d
    decreases n - m
  {
    if m < n {
      MulMono(m + 1, n, d);
      assert (m + 1) * d == m * d + d;
    }
  }

  // ---- steps up ------------------------------------------------------------------------------------------

  /** The samples counted in calm: calm ones, outside a cooldown, that held. */
  lemma {:induction false} CalmCounts(g: Config, xs: seq<Sample>, i: nat, j: nat)
    requires i <= |xs| && i - StateAt(g, xs, Start, i).calm <= j < i
    ensures StateAt(g, xs, Start, i).calm <= i
    ensures Calm(g, xs[j]) && StateAt(g, xs, Start, j).cool == 0 && ActionAt(g, xs, Start, j).Hold?
  {
    CalmAtMost(g, xs, i);
    if j < i - 1 { CalmCounts(g, xs, i - 1, j); }
  }

  lemma {:induction false} CalmAtMost(g: Config, xs: seq<Sample>, i: nat)
    requires i <= |xs|
    ensures StateAt(g, xs, Start, i).calm <= i
  {
    if i > 0 { CalmAtMost(g, xs, i - 1); }
  }

  /** Every step up ends calm_samples (at least one) calm samples in a row outside a cooldown. */
  lemma UpAfterCalm(g: Config, xs: seq<Sample>, i: nat)
    requires i < |xs| && ActionAt(g, xs, Start, i).Up?
    ensures i + 1 >= g.calmSamples && Calm(g, xs[i]) && StateAt(g, xs, Start, i).cool == 0
    ensures forall j :: 0 <= j < i && j + g.calmSamples > i
                        ==> Calm(g, xs[j]) && StateAt(g, xs, Start, j).cool == 0 && ActionAt(g, xs, Start, j).Hold?
  {
    CalmAtMost(g, xs, i);
    forall j | 0 <= j < i && j + g.calmSamples > i
      ensures Calm(g, xs[j]) && StateAt(g, xs, Start, j).cool == 0 && ActionAt(g, xs, Start, j).Hold?
    {
      CalmCounts(g, xs, i, j);
    }
  }

  // ---- bounded response ----------------------------------------------------------------------------------

  /** Emergency samples a sheddable server at s still takes, the last one being the stop. */
  function ToStop(g: Config, s: State): int
  {
    if !g.hostKv then Max(1, g.emergencySamples - s.hot)
    else if s.rung == g.last then Min(Max(1, g.emergencySamples - s.hot), s.cool + 1)
    else s.cool + 1 + Min(Max(1, g.emergencySamples - (s.hot + s.cool + 1)), g.cooldown + 1)
  }

  lemma EmergencyStep(g: Config, x: Sample, s: State)
    requires Inv(g, s) && Sheddable(g) && Emergency(g, x)
    ensures ToStop(g, s) >= 1
    ensures Step(g, x, s).0.Stop? <==> ToStop(g, s) == 1
    ensures !Step(g, x, s).0.Stop? ==> ToStop(g, Step(g, x, s).1) == ToStop(g, s) - 1
  {
  }

  lemma {:induction false} EmergencyCountdown(g: Config, xs: seq<Sample>, s: State, i: nat)
    requires Inv(g, s) && Sheddable(g) && i <= |xs| && i < ToStop(g, s)
    requires forall k :: 0 <= k < |xs| ==> Emergency(g, xs[k])
    ensures Running(g, xs, s, i) && ToStop(g, StateAt(g, xs, s, i)) == ToStop(g, s) - i
  {
    if i > 0 {
      EmergencyCountdown(g, xs, s, i - 1);
      InvAlways(g, xs, s, i - 1);
      EmergencyStep(g, xs[i - 1], StateAt(g, xs, s, i - 1));
    }
  }

  /** From any reachable state, emergencies alone stop a sheddable server at sample ToStop exactly,
      which is at most emergency_samples or, if more, cooldown_samples + 2. */
  lemma EmergencyStops(g: Config, xs: seq<Sample>, s: State)
    requires Inv(g, s) && Sheddable(g) && |xs| >= ToStop(g, s)
    requires forall k :: 0 <= k < |xs| ==> Emergency(g, xs[k])
    ensures 1 <= ToStop(g, s) <= Max(g.emergencySamples, g.cooldown + 2)
    ensures Running(g, xs, s, ToStop(g, s) - 1) && ActionAt(g, xs, s, ToStop(g, s) - 1).Stop?
  {
    var n := ToStop(g, s) - 1;
    EmergencyCountdown(g, xs, s, n);
    InvAlways(g, xs, s, n);
    EmergencyStep(g, xs[n], StateAt(g, xs, s, n));
  }

  /** Calm samples from one step up to the next. */
  function Lap(g: Config): nat { g.cooldown + Max(1, g.calmSamples) }

  /** Calm samples that bring a server at s back to rung 0. */
  function ToTop(g: Config, s: State): nat
  {
    if s.rung <= 0 then 0 else s.cool + Max(1, g.calmSamples - s.calm) + Laps(s.rung - 1, Lap(g))
  }

  lemma CalmStep(g: Config, x: Sample, s: State)
    requires Inv(g, s) && Calm(g, x)
    ensures ToTop(g, Step(g, x, s).1) == Max(0, ToTop(g, s) - 1)
    ensures !Step(g, x, s).0.Stop? && !Step(g, x, s).0.Down?
  {
  }

  lemma {:induction false} CalmCountdown(g: Config, xs: seq<Sample>, s: State, i: nat)
    requires Inv(g, s) && i <= |xs| && forall k :: 0 <= k < |xs| ==> Calm(g, xs[k])
    ensures ToTop(g, StateAt(g, xs, s, i)) == Max(0, ToTop(g, s) - i)
  {
    ToTopSign(g, s);
    if i > 0 {
      CalmCountdown(g, xs, s, i - 1);
      InvAlways(g, xs, s, i - 1);
      CalmStep(g, xs[i - 1], StateAt(g, xs, s, i - 1));
    }
  }

  lemma ToTopSign(g: Config, s: State)
    requires Inv(g, s)
    ensures ToTop(g, s) == 0 <==> s.rung == 0
    ensures ToTop(g, s) <= s.rung * Lap(g)
  {
    LapsIsProduct(s.rung, Lap(g));
  }

  /** From any reachable state, calm samples alone bring the server to rung 0 at sample ToTop, at
      most rung * (cooldown_samples + calm_samples), not before, and keep it there. */
  lemma CalmRestores(g: Config, xs: seq<Sample>, s: State, i: nat)
    requires Inv(g, s) && i <= |xs| && forall k :: 0 <= k < |xs| ==> Calm(g, xs[k])
    ensures ToTop(g, s) <= s.rung * Lap(g)
    ensures StateAt(g, xs, s, i).rung == 0 <==> i >= ToTop(g, s)
  {
    ToTopSign(g, s);
    InvAlways(g, xs, s, i);
    CalmCountdown(g, xs, s, i);
    ToTopSign(g, StateAt(g, xs, s, i));
  }

  /** Without an emergency nothing is stopped, whatever the pressure. */
  lemma NoEmergencyNoStop(g: Config, xs: seq<Sample>, s: State)
    requires forall k :: 0 <= k < |xs| ==> !Emergency(g, xs[k])
    ensures Running(g, xs, s, |xs|)
  {
  }
}
