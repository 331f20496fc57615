/** console/tune.py: the acceptance gates of _confirm for one candidate, and the neighbours of an
    incumbent. */
module TuneGates {
  import opened Wrappers
  import MannWhitney

  // ---- gates ------------------------------------------------------------------------------------------

  function Insert(x: real, s: seq<real>): (r: seq<real>)
    ensures |r| == |s| + 1
  {
    if s == [] || x <= s[0] then [x] + s else [s[0]] + Insert(x, s[1..])
  }

  function Sorted(s: seq<real>): (r: seq<real>)
    ensures |r| == |s|
  {
    if s == [] then [] else Insert(s[0], Sorted(s[1..]))
  }

  /** statistics.median. */
  function Median(s: seq<real>): real
    requires s != []
  {
    var r, h := Sorted(s), |s| / 2;
    if |s| % 2 == 1 then r[h] else (r[h - 1] + r[h]) / 2.0
  }

  /** max - min. */
  function Spread(s: seq<real>): real
    requires s != []
  {
    Sorted(s)[|s| - 1] - Sorted(s)[0]
  }

  function Abs(x: real): real { if x < 0.0 then -x else x }

  function Larger(x: real, y: real): real { if x >= y then x else y }

  function Signed(s: seq<real>, up: bool): (r: seq<real>)
    ensures |r| == |s|
  {
    seq(|s|, i requires 0 <= i < |s| => if up then s[i] else -s[i])
  }

  /** up: the objective is better when larger; guardUp likewise for the guardrail metric. */
  datatype Criteria = Criteria(nConfirm: nat, margin: real, k: real, alpha: real, guardTol: real, up: bool,
                               guardUp: bool, noSpread: real)

  /** What the confirmation measured of the incumbent and of one candidate. */
  datatype Measured = Measured(base: seq<real>, obj: seq<real>, guardBase: Option<real>, guardObj: Option<real>,
                               qualityBase: Option<real>, qualityObj: Option<real>)

  datatype Gate = Samples | Gain | Separation | PValue | Guardrail | Quality

  function Diff(c: Criteria, m: Measured): real
    requires m.base != [] && m.obj != []
  {
    var d := Median(m.obj) - Median(m.base);
    if c.up then d else -d
  }

  function GainOf(c: Criteria, m: Measured): real
    requires m.base != [] && m.obj != []
  {
    Relative(Diff(c, m), Median(m.base), c.noSpread)
  }

  function Relative(d: real, base: real, noSpread: real): real { if base == 0.0 then noSpread else d / Abs(base) }

  /** The wider of the two spreads. */
  function Width(m: Measured): real
    requires m.base != [] && m.obj != []
  {
    Larger(Spread(m.obj), Spread(m.base))
  }

  function SeparationOf(c: Criteria, m: Measured): real
    requires m.base != [] && m.obj != []
  {
    Separated(Diff(c, m), Width(m), c.noSpread)
  }

  function Separated(d: real, width: real, noSpread: real): real
  {
    if width == 0.0 && d > 0.0 then noSpread else if width == 0.0 then 0.0 else d / width
  }

  function PValueOf(c: Criteria, m: Measured): real
  {
    if m.obj == [] || m.base == [] then 1.0
    else MannWhitney.P(MannWhitney.U(Signed(m.obj, c.up), Signed(m.base, c.up), |m.obj|), |m.obj|, |m.base|)
  }

  /** The gates a candidate fails among `candidates` of them; too few samples end the list. */
  function Reasons(c: Criteria, m: Measured, candidates: nat): set<Gate>
    requires c.nConfirm >= 1 && |m.base| >= c.nConfirm
  {
    if |m.obj| < c.nConfirm then {Samples}
    else Failed(c, GainOf(c, m), SeparationOf(c, m), PValueOf(c, m), GuardLost(c, m), QualityLost(m), candidates)
  }

  function Failed(c: Criteria, gain: real, separation: real, p: real, guardLost: bool, qualityLost: bool,
                  candidates: nat): set<Gate>
  {
    (if gain < c.margin then {Gain} else {})
    + (if separation < c.k then {Separation} else {})
    + (if p > c.alpha / (if candidates >= 1 then candidates else 1) as real then {PValue} else {})
    + (if guardLost then {Guardrail} else {})
    + (if qualityLost then {Quality} else {})
  }

  predicate GuardLost(c: Criteria, m: Measured)
  {
    m.guardBase.Some? && m.guardObj.Some? && WorseBy(c, m.guardBase.value, m.guardObj.value)
  }

  predicate QualityLost(m: Measured)
  {
    m.qualityBase.Some? && (m.qualityObj.None? || m.qualityObj.value < m.qualityBase.value)
  }

  predicate WorseBy(c: Criteria, base: real, obj: real)
  {
    (if c.guardUp then obj - base else base - obj) < -c.guardTol * Abs(base)
  }

  predicate Accepted(c: Criteria, m: Measured, candidates: nat)
    requires c.nConfirm >= 1 && |m.base| >= c.nConfirm
  {
    Reasons(c, m, candidates) == {}
  }

  /** With one sample per run and more candidates than the cap, no measurement is ever accepted. */
  lemma TooManyCandidates(c: Criteria, m: Measured, candidates: nat)
    requires c.nConfirm >= 1 && |m.base| == |m.obj| == c.nConfirm
    requires candidates > MannWhitney.MaxFinalists(c.alpha, c.nConfirm)
    ensures PValue in Reasons(c, m, candidates)
  {
    var u := MannWhitney.U(Signed(m.obj, c.up), Signed(m.base, c.up), |m.obj|);
    MannWhitney.UAtMost(Signed(m.obj, c.up), Signed(m.base, c.up), |m.obj|);
    MannWhitney.PastTheCapNonePass(c.alpha, c.nConfirm, candidates, u);
  }

  // ---- neighbours ---------------------------------------------------------------------------------------

  /** A validated config is its canonical JSON (config_key); the baseline carries no other key. */
  datatype Config = Baseline | Explicit(json: string)

  type Value = Option<string>

  type Choice = map<string, Value>

  datatype Axis = Axis(name: string, values: seq<Value>)

  function Get(ch: Choice, name: string): Value { if name in ch then ch[name] else None }

  /** The host's view: the knobs of the incumbent's device, the other devices at their defaults. */
  datatype Space = Space(axes: seq<Axis>, choice: Choice, others: seq<Config>, build: Choice -> Config,
                         feasible: Config -> bool)

  function Own(f: Space): Config { f.build(f.choice) }

  /** c changes one knob of the incumbent to another value of its axis. */
  ghost predicate OneKnob(f: Space, c: Config)
  {
    exists a, v :: 0 <= a < |f.axes| && 0 <= v < |f.axes[a].values| && Turned(f, c, a, v)
  }

  predicate Turned(f: Space, c: Config, a: nat, v: nat)
    requires a < |f.axes| && v < |f.axes[a].values|
  {
    var x := f.axes[a];
    x.values[v] != Get(f.choice, x.name) && c == f.build(f.choice[x.name := x.values[v]])
  }

  ghost predicate NoDuplicates(s: seq<Config>) { forall i, j :: 0 <= i < j < |s| ==> s[i] != s[j] }

  /** add(): a feasible config not seen yet. */
  method Add(f: Space, c: Config, out: seq<Config>) returns (r: seq<Config>)
    requires NoDuplicates(out) && Own(f) !in out
    ensures NoDuplicates(r) && Own(f) !in r
    ensures r == if f.feasible(c) && c != Own(f) && c !in out then out + [c] else out
  {
    r := if f.feasible(c) && c != Own(f) && c !in out then out + [c] else out;
  }

  /** What the loops over the first a axes, and over the first v values of axis a, have added. */
  ghost predicate AddedKnobs(f: Space, out: seq<Config>, a: nat, v: nat)
    requires a <= |f.axes| && (a < |f.axes| ==> v <= |f.axes[a].values|)
  {
    (forall b, w :: 0 <= b < a && 0 <= w < |f.axes[b].values| ==> AddedOne(f, out, b, w))
    && (a < |f.axes| ==> forall w :: 0 <= w < v ==> AddedOne(f, out, a, w))
  }

  ghost predicate AddedOne(f: Space, out: seq<Config>, a: nat, v: nat)
    requires a < |f.axes| && v < |f.axes[a].values|
  {
    var x := f.axes[a];
    var c := f.build(f.choice[x.name := x.values[v]]);
    x.values[v] != Get(f.choice, x.name) && f.feasible(c) && c != Own(f) ==> c in out
  }

  lemma AddedGrows(f: Space, out: seq<Config>, r: seq<Config>, a: nat, v: nat)
    requires a <= |f.axes| && (a < |f.axes| ==> v <= |f.axes[a].values|) && AddedKnobs(f, out, a, v)
    requires forall c :: c in out ==> c in r
    ensures AddedKnobs(f, r, a, v)
  {
    forall b, w | 0 <= b < a && 0 <= w < |f.axes[b].values| ensures AddedOne(f, r, b, w) {
      assert AddedOne(f, out, b, w);
    }
    if a < |f.axes| {
      forall w | 0 <= w < v ensures AddedOne(f, r, a, w) { assert AddedOne(f, out, a, w); }
    }
  }

  ghost predicate OnlyNeighbours(f: Space, out: seq<Config>)
  {
    forall c :: c in out ==> f.feasible(c) && c != Own(f) && (OneKnob(f, c) || c in f.others)
  }

  /** neighbours: the feasible configs one knob away, then the other devices, each once. */
  method Neighbours(f: Space) returns (out: seq<Config>)
    ensures NoDuplicates(out) && OnlyNeighbours(f, out)
    ensures forall c :: OneKnob(f, c) && f.feasible(c) && c != Own(f) ==> c in out
    ensures forall c :: c in f.others && f.feasible(c) && c != Own(f) ==> c in out
  {
    out := [];
    for a := 0 to |f.axes|
      invariant NoDuplicates(out) && Own(f) !in out && OnlyNeighbours(f, out)
      invariant AddedKnobs(f, out, a, 0)
    {
      var x := f.axes[a];
      for v := 0 to |x.values|
        invariant NoDuplicates(out) && Own(f) !in out && OnlyNeighbours(f, out)
        invariant AddedKnobs(f, out, a, v)
      {
        if x.values[v] != Get(f.choice, x.name) {
          var c := f.build(f.choice[x.name := x.values[v]]);
          assert Turned(f, c, a, v);
          var r := Add(f, c, out);
          AddedGrows(f, out, r, a, v);
          out := r;
        }
      }
    }
    for d := 0 to |f.others|
      invariant NoDuplicates(out) && Own(f) !in out && OnlyNeighbours(f, out)
      invariant AddedKnobs(f, out, |f.axes|, 0)
      invariant forall e :: 0 <= e < d && f.feasible(f.others[e]) && f.others[e] != Own(f) ==> f.others[e] in out
    {
      var r := Add(f, f.others[d], out);
      AddedGrows(f, out, r, |f.axes|, 0);
      out := r;
    }
    forall c | OneKnob(f, c) && f.feasible(c) && c != Own(f) ensures c in out {
      var a, v :| 0 <= a < |f.axes| && 0 <= v < |f.axes[a].values| && Turned(f, c, a, v);
      assert AddedOne(f, out, a, v);
    }
  }
}
