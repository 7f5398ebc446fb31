/** Projection of real usage figures onto the figures reported to the client:
    simulated cache use, sampling and capping. Pseudo-random draws are arbitrary
    functions of the seed, the figures and a salt.
 */
module Reporter {
  import opened Wrappers
  import opened PromptCache

  datatype Figures = Figures(input: int, output: int, read: int, creation: int, c5m: int, c1h: int)

  datatype Mode = Raw | Preserve | SampleMax | SampleTarget

  datatype Policy = Policy(mode: Mode, maxTokens: int, targetTokens: int, multiplier: real, moveDelta: bool)

  datatype Profile = Profile(enabled: bool, simulateCache: bool, input: Policy, output: Policy, read: Policy,
                             creation: Policy, tokenScale: real, maxSimulated: int, jitterMin: int,
                             jitterMax: int, scaleMin: int, emitTTL: bool)

  /** What the prompt-cache tracker computed, and how to project it. */
  datatype Simulation = Simulation(read: int, creation: int, creation1h: int, ratio: real, seed: nat, profile: Profile)

  datatype Dice = Dice(draw: (nat, Figures, nat) -> nat, again: (nat, nat) -> nat, reseed: (Figures, Figures) -> nat)

  const MAX_INT: int := 0x7fff_ffff_ffff_ffff

  const OUTPUT_SALT: nat := 0x6d2b79f5aa5421d1
  const READ_SALT: nat := 0x94d049bb133111eb
  const INPUT_SALT: nat := 0xa24baed4963ee407
  const CREATION_SALT: nat := 0xd6e8feb86659fd93

  function Max(a: int, b: int): int { if a > b then a else b }

  function Min(a: int, b: int): int { if a < b then a else b }

  // ------------------------------------------------------------- normal form

  function NormalPolicy(p: Policy): Policy
  {
    p.(maxTokens := Max(p.maxTokens, 0), targetTokens := Max(p.targetTokens, 0),
       multiplier := if p.multiplier < 1.0 then 1.1 else p.multiplier)
  }

  function NormalProfile(p: Profile): Profile
  {
    var low, high := Max(p.jitterMin, 0), Max(p.jitterMax, 0);
    p.(input := NormalPolicy(p.input), output := NormalPolicy(p.output), read := NormalPolicy(p.read),
       creation := NormalPolicy(p.creation),
       tokenScale := if p.tokenScale <= 0.0 then 1.0 else Clamp(p.tokenScale, 1.0, 3.0),
       maxSimulated := Max(p.maxSimulated, 0), jitterMin := Min(low, high), jitterMax := Max(low, high),
       scaleMin := Max(p.scaleMin, 0))
  }

  /** Nothing negative, and no more cache lifetimes than cache creation. */
  predicate Sound(u: Figures)
  {
    u.input >= 0 && u.output >= 0 && u.read >= 0 && u.creation >= 0 && u.c5m >= 0 && u.c1h >= 0 &&
    u.c5m + u.c1h <= u.creation
  }

  function Normal(u: Figures): (n: Figures)
    ensures Sound(n) && (Sound(u) ==> n == u)
  {
    var creation := Max(u.creation, 0);
    var c5m := Min(Max(u.c5m, 0), creation);
    Figures(Max(u.input, 0), Max(u.output, 0), Max(u.read, 0), creation, c5m, Min(Max(u.c1h, 0), Max(creation - c5m, 0)))
  }

  predicate HasCache(u: Figures)
  {
    u.read > 0 || u.creation > 0
  }

  // ---------------------------------------------------------------- sampling

  function Percent(value: nat, percent: nat): nat
  {
    value * percent / 100
  }

  function NormalMax(target: int, multiplier: real): (v: int)
    ensures 1 <= v <= MAX_INT
  {
    var v := Round(Max(target, 0) as real * (if multiplier < 1.0 then 1.0 else multiplier));
    if v < 1 then 1 else Min(v, MAX_INT)
  }

  datatype Bucket = Bucket(below: nat, low: nat, high: nat)

  function Range(roll: nat, buckets: seq<Bucket>): Bucket
    requires buckets != []
  {
    if roll < buckets[0].below || |buckets| == 1 then buckets[0] else Range(roll, buckets[1..])
  }

  /** A number between the two bounds, each brought into 1..top first. */
  function SampleInRange(random: nat, low: int, high: int, top: int): (v: int)
    ensures 1 <= v <= Max(top, 1)
    ensures 1 <= low <= high <= top ==> low <= v <= high
  {
    var t := Max(top, 1);
    var l, h := Min(Max(low, 1), t), Min(Max(high, 1), t);
    var (a, b) := if l > h then (1, t) else (l, h);
    a + random % (b - a + 1)
  }

  function PolicyTarget(p: Policy): Option<(int, real)>
  {
    match p.mode
    case SampleMax => Some((p.maxTokens, 1.0))
    case SampleTarget => Some((p.targetTokens, p.multiplier))
    case _ => None
  }

  /** What a sampled field is sampled towards, in the normal form of its policy. */
  function Goal(p: Policy): int
  {
    match p.mode
    case SampleMax => Max(p.maxTokens, 0)
    case SampleTarget => Max(p.targetTokens, 0)
    case _ => 0
  }

  function Ceiling(p: Policy): (v: int)
    ensures v >= 1
  {
    NormalMax(Goal(p), if p.mode == SampleTarget then NormalPolicy(p).multiplier else 1.0)
  }

  const FIELD_BUCKETS := [Bucket(70, 2, 25), Bucket(95, 26, 70), Bucket(100, 71, 100)]
  const READ_BUCKETS := [Bucket(45, 1, 10), Bucket(75, 11, 45), Bucket(93, 46, 85), Bucket(100, 86, 100)]
  const FRESH_BUCKETS := [Bucket(35, 1, 12), Bucket(70, 13, 50), Bucket(92, 51, 88), Bucket(100, 89, 100)]

  /** A field is only ever sampled downwards, and never to nothing. */
  function SampleField(d: Dice, field: Policy, u: Figures, current: int, seed: nat, salt: nat): (r: Option<int>)
    ensures r.Some? ==> 1 <= r.value <= current && r.value <= Ceiling(field)
    ensures r.Some? <==> current > 0 && Goal(field) > 0
    ensures r.Some? && field.mode == SampleMax ==> r.value <= field.maxTokens
  {
    var p := NormalPolicy(field);
    var t := PolicyTarget(p);
    if current <= 0 || t.None? || t.value.0 <= 0 then None
    else
      var top := Min(NormalMax(t.value.0, t.value.1), current);
      var random := d.draw(seed, u, salt);
      var b := Range(random % 100, FIELD_BUCKETS);
      var low := Max(Percent(top, b.low), 1);
      TopWithinTarget(field);
      Some(SampleInRange(d.again(random, salt), low, Max(Percent(top, b.high), low), top))
  }

  lemma TopWithinTarget(field: Policy)
    ensures var p := NormalPolicy(field);
            field.mode == SampleMax && p.maxTokens > 0 ==> NormalMax(p.maxTokens, 1.0) <= field.maxTokens
  {
    var n := Max(field.maxTokens, 0);
    assert (n as real * 1.0 + 0.5).Floor == n;
  }

  function SampleCreation(d: Dice, field: Policy, u: Figures, seed: nat): (r: Option<int>)
    ensures r.Some? ==> 0 <= r.value <= u.creation && r.value <= Ceiling(field)
    ensures r.Some? <==> u.creation > 0 && Goal(field) > 0
    ensures r == Some(0) ==> u.read > 0
  {
    var t := PolicyTarget(NormalPolicy(field));
    if u.creation <= 0 || t.None? || t.value.0 <= 0 then None
    else
      var normalMax := NormalMax(t.value.0, t.value.1);
      var random := d.draw(seed, u, CREATION_SALT);
      var roll := random % 100;
      if u.read > 0 && roll < 20 then Some(0)
      else
        var b := Range(roll, if u.read > 0 then READ_BUCKETS else FRESH_BUCKETS);
        var low := Max(Percent(normalMax, b.low), 1);
        Some(SampleInRange(d.again(random, 0x9e3779b97f4a7c15), low, Max(Percent(normalMax, b.high), low),
                           Min(u.creation, normalMax)))
  }

  // ----------------------------------------------------------------- capping

  function CapBreakdown(c5m: int, c1h: int, limit: int): (int, int)
  {
    var l, a, b := Max(limit, 0), Max(c5m, 0), Max(c1h, 0);
    if l <= 0 || a + b <= 0 then (0, 0)
    else if a + b <= l then (a, b)
    else
      var a' := a * l / (a + b);
      (a', l - a')
  }

  /** The cap shares the limit out in proportion: the parts sum to the smaller of
      limit and total, and neither is raised. */
  lemma CapSharesLimit(c5m: nat, c1h: nat, limit: nat)
    ensures var (a, b) := CapBreakdown(c5m, c1h, limit);
            0 <= a <= c5m && 0 <= b <= c1h && a + b == Min(limit, c5m + c1h) &&
            (limit < c5m + c1h ==> a * (c5m + c1h) <= c5m * limit < (a + 1) * (c5m + c1h))
  {
    if 0 < limit < c5m + c1h {
      Shares(c5m, c1h, limit);
      ShareBounds(c5m, limit, c5m + c1h);
      Distribute(c5m * limit / (c5m + c1h), 1, c5m + c1h);
    }
  }

  lemma Shares(c5m: nat, c1h: nat, limit: nat)
    requires limit < c5m + c1h
    ensures var a := c5m * limit / (c5m + c1h); 0 <= a <= c5m && a <= limit && limit - a <= c1h
  {
    var a := c5m * limit / (c5m + c1h);
    ShareBounds(c5m, limit, c5m + c1h);
    SecondShare(c5m, c1h, limit, a);
    Times(limit, c5m, c5m + c1h);
    NoMore(a, limit, c5m + c1h);
  }

  lemma ShareBounds(c5m: nat, limit: nat, total: nat)
    requires limit < total
    ensures var a := c5m * limit / total;
            0 <= a <= c5m && a * total <= c5m * limit < a * total + total
  {
    QuotientBounds(c5m * limit, total);
    FirstShare(c5m, limit, total, c5m * limit / total);
  }

  lemma FirstShare(c5m: nat, limit: nat, total: nat, a: nat)
    requires limit < total && a * total <= c5m * limit
    ensures a <= c5m
  {
    Times(c5m, limit, total);
    NoMore(a, c5m, total);
  }

  /** The other part is the second lifetime's share, rounded up. */
  lemma SecondShare(c5m: nat, c1h: nat, limit: nat, a: nat)
    requires limit < c5m + c1h && c5m * limit < a * (c5m + c1h) + (c5m + c1h)
    ensures limit - a <= c1h
  {
    var total := c5m + c1h;
    Times(c1h, limit, total);
    Distribute(c5m, c1h, limit);
    Spread(limit, a, total);
    Less(limit - a, c1h + 1, total, c1h * total);
  }

  lemma Distribute(x: int, y: int, z: int)
    ensures (x + y) * z == x * z + y * z
  {
  }

  lemma Spread(x: int, y: int, n: int)
    ensures (x - y) * n == n * x - y * n
  {
  }

  lemma Less(q: int, k: int, n: int, kn: int)
    requires n > 0 && kn == (k - 1) * n && q * n < kn + n
    ensures q < k
  {
    assert (k - q) * n > 0;
  }

  lemma QuotientBounds(x: nat, n: nat)
    requires n > 0
    ensures (x / n) * n <= x < (x / n) * n + n
  {
    assert x == (x / n) * n + x % n;
  }

  lemma Times(k: nat, l: nat, t: nat)
    requires l <= t
    ensures k * l <= k * t
  {
    assert k * t == k * l + k * (t - l);
  }

  lemma NoMore(q: int, k: int, n: int)
    requires n > 0 && q * n <= k * n
    ensures q <= k
  {
    assert (k - q) * n >= 0;
  }

  // -------------------------------------------------------------- simulation

  function CapJitter(p: Profile, seed: nat): (j: int)
    ensures j >= 0
  {
    if p.jitterMax <= 0 || p.maxSimulated <= 1 then 0
    else
      var top := Max(Min(Min(p.jitterMax, Round(p.maxSimulated as real * 0.08)), p.maxSimulated - 1), 0);
      if top <= 0 then 0
      else
        var low := Min(Max(p.jitterMin, 0), top);
        low + seed % (top - low + 1)
  }

  function Scaled(base: int, scale: real): real
  {
    base as real * scale
  }

  /** No more than the simulated cap, less a jitter. */
  function Capped(scaled: int, p: Profile, seed: nat): int
  {
    if p.maxSimulated <= 1 || scaled <= p.maxSimulated then scaled
    else Min(scaled, Min(Max(p.maxSimulated - CapJitter(p, seed), 1), p.maxSimulated))
  }

  /** Small inputs are left alone; others grow, but never beyond the simulated cap. */
  function Amplify(base: int, p: Profile, seed: nat): (r: int)
    ensures r >= 0
    ensures base >= 0 && (base <= 1 || base < p.scaleMin) ==> r == base
    ensures base > 1 && base >= p.scaleMin && p.maxSimulated > 1 ==> 1 <= r <= p.maxSimulated
    ensures base > 1 && p.maxSimulated <= 1 ==> r >= base
  {
    var b := Max(base, 0);
    if b <= 1 || b < p.scaleMin then b
    else
      Capped(Max(Round(Scaled(b, p.tokenScale)), b), p, seed)
  }

  function SimulatedTarget(sim: Simulation, total: int): (t: int)
    ensures t >= 0
  {
    Max(Round(Portion(Amplify(total, NormalProfile(sim.profile), sim.seed), sim.ratio)), 0)
  }

  /** The figures with the simulated cache use put in. */
  function Simulated(sim: Simulation, raw: Figures): (u: Figures)
    requires Sound(raw)
    ensures Sound(u) && u.output == raw.output && u.c5m + u.c1h == u.creation
    ensures u.read + u.creation == if sim.read > 0 || sim.creation > 0 then SimulatedTarget(sim, u.input) else 0
    ensures (sim.read <= 0 ==> u.read == 0) && (sim.creation <= 0 ==> u.creation == 0)
    ensures sim.read > 0 && sim.creation > 0 ==> u.read == Min(sim.read, SimulatedTarget(sim, u.input))
    ensures u.c1h == (if sim.creation1h > 0 then u.creation else 0) && (raw.input > 0 ==> u.input == raw.input)
  {
    var total := if raw.input > 0 then raw.input else raw.input + raw.read + raw.creation;
    var target := SimulatedTarget(sim, total);
    var read := if sim.read <= 0 then 0 else if sim.creation > 0 then Min(sim.read, target) else target;
    var creation := if sim.creation <= 0 then 0 else Max(target - read, 0);
    var c1h := if sim.creation1h > 0 then creation else 0;
    Figures(total, raw.output, read, creation, Max(creation - c1h, 0), c1h)
  }

  // -------------------------------------------------------------- projection

  function InputBase(p: Policy, computed: Figures, raw: Figures): int
  {
    if p.mode == Preserve then computed.input else raw.input
  }

  function Base(p: Policy, computed: int, raw: int): int
  {
    if p.mode == Raw then raw else computed
  }

  predicate Simulates(raw: Figures, sim: Simulation, hasSim: bool)
  {
    hasSim && raw.read <= 0 && raw.creation <= 0 && (sim.read > 0 || sim.creation > 0)
  }

  /** The figures the projection starts from. */
  function Computed(raw: Figures, sim: Simulation, hasSim: bool): (c: Figures)
    requires Sound(raw)
    ensures Sound(c)
  {
    if Simulates(raw, sim, hasSim) then Simulated(sim, raw) else raw
  }

  function CreationBase(p: Policy, computed: Figures, raw: Figures): Figures
  {
    if p.mode == Raw then raw else computed
  }

  /** A field keeps its base value unless it is sampled, and then shrinks below the
      policy's ceiling. */
  predicate Reduced(p: Policy, value: int, base: int)
  {
    0 <= value <= base && if Goal(p) > 0 then value <= Ceiling(p) else value == base
  }

  /** What a projection may do to the figures. */
  ghost predicate Projects(p: Profile, computed: Figures, raw: Figures, r: Figures)
  {
    var input, read := InputBase(p.input, computed, raw), Base(p.read, computed.read, raw.read);
    var c := CreationBase(p.creation, computed, raw);
    Sound(r) && Reduced(p.output, r.output, Base(p.output, computed.output, raw.output)) &&
    Reduced(p.creation, r.creation, c.creation) && Reduced(p.input, r.input, input) &&
    (if p.input.moveDelta then r.read >= input - r.input && Reduced(p.read, r.read + r.input - input, read)
     else Reduced(p.read, r.read, read)) &&
    (if p.emitTTL then r.c5m + r.c1h == Min(r.creation, c.c5m + c.c1h) && r.c5m <= c.c5m && r.c1h <= c.c1h
     else r.c5m == 0 && r.c1h == 0)
  }

  /** Creation sampled, with its lifetimes capped in proportion. */
  method ProjectCreation(d: Dice, p: Policy, u: Figures, seed: nat) returns (r: Figures)
    requires Sound(u)
    ensures Sound(r) && Reduced(p, r.creation, u.creation)
    ensures r.(creation := u.creation, c5m := u.c5m, c1h := u.c1h) == u
    ensures r.c5m + r.c1h == Min(r.creation, u.c5m + u.c1h) && r.c5m <= u.c5m && r.c1h <= u.c1h
  {
    r := u;
    var v := SampleCreation(d, p, u, seed);
    if v.Some? {
      CapSharesLimit(u.c5m, u.c1h, v.value);
      var (a, b) := CapBreakdown(u.c5m, u.c1h, v.value);
      r := r.(creation := v.value, c5m := a, c1h := b);
    }
  }

  /** Input sampled, with the difference moved to the cache reads if so set. */
  method ProjectInput(d: Dice, p: Policy, u: Figures, seed: nat) returns (r: Figures)
    requires Sound(u)
    ensures Sound(r) && Reduced(p, r.input, u.input)
    ensures r.(input := u.input, read := u.read) == u
    ensures if p.moveDelta then r.input + r.read == u.input + u.read else r.read == u.read
  {
    r := u;
    var current := Max(u.input, 0);
    if current > 0 {
      var v := SampleField(d, p, u, current, seed, INPUT_SALT);
      if v.Some? {
        var input := Min(Max(v.value, 1), current);
        r := r.(input := input);
        if p.moveDelta {
          r := r.(read := Max(u.read, 0) + (current - input));
        }
      }
    }
  }

  /** What sampling may do to the base figures `u`. */
  ghost predicate Sampled(p: Profile, u: Figures, r: Figures)
  {
    Sound(r) && Reduced(p.output, r.output, u.output) && Reduced(p.creation, r.creation, u.creation) &&
    Reduced(p.input, r.input, u.input) &&
    (if p.input.moveDelta then r.read >= u.input - r.input && Reduced(p.read, r.read + r.input - u.input, u.read)
     else Reduced(p.read, r.read, u.read)) &&
    r.c5m + r.c1h == Min(r.creation, u.c5m + u.c1h) && r.c5m <= u.c5m && r.c1h <= u.c1h
  }

  method SampleFigures(d: Dice, p: Profile, base: Figures, seed: nat) returns (r: Figures)
    requires Sound(base)
    ensures Sampled(p, base, r)
  {
    var u := base;
    var output := SampleField(d, p.output, u, u.output, seed, OUTPUT_SALT);
    if output.Some? {
      u := u.(output := output.value);
    }
    var read := SampleField(d, p.read, u, u.read, seed, READ_SALT);
    if read.Some? {
      u := u.(read := read.value);
    }
    u := ProjectCreation(d, p.creation, u, seed);
    u := ProjectInput(d, p.input, u, seed);
    r := Normal(u);
  }

  lemma ProjectsFromBases(p: Profile, computed: Figures, raw: Figures, u: Figures, r: Figures)
    requires Sound(computed) && Sound(raw) && Sampled(p, u, r)
    requires var c := CreationBase(p.creation, computed, raw);
             u == Figures(InputBase(p.input, computed, raw), Base(p.output, computed.output, raw.output),
                          Base(p.read, computed.read, raw.read), c.creation, c.c5m, c.c1h)
    ensures Projects(p, computed, raw, if p.emitTTL then r else r.(c5m := 0, c1h := 0))
  {
  }

  method ApplyReportProfile(d: Dice, given: Figures, sim: Simulation, hasSim: bool) returns (r: Figures, simulated: bool)
    ensures Sound(r)
    ensures var raw := Normal(given);
            var computed := Computed(raw, sim, hasSim);
            var p := NormalProfile(sim.profile);
            if !p.enabled then r == raw && !simulated
            else if HasCache(computed) then
              Projects(p, computed, raw, r) && (simulated <==> Simulates(raw, sim, hasSim))
            else r == raw && !simulated
  {
    var p := NormalProfile(sim.profile);
    var raw := Normal(given);
    if !p.enabled {
      return raw, false;
    }
    var computed := raw;
    simulated := false;
    if hasSim && raw.read <= 0 && raw.creation <= 0 && (sim.read > 0 || sim.creation > 0) {
      computed := Simulated(sim, raw);
      simulated := HasCache(computed);
    }
    if !HasCache(computed) {
      return raw, false;
    }
    var seed := if sim.seed == 0 then d.reseed(raw, computed) else sim.seed;
    var u := computed.(input := InputBase(p.input, computed, raw), output := Base(p.output, computed.output, raw.output),
                       read := Base(p.read, computed.read, raw.read));
    if p.creation.mode == Raw {
      u := u.(creation := raw.creation, c5m := raw.c5m, c1h := raw.c1h);
    }
    r := SampleFigures(d, p, u, seed);
    ProjectsFromBases(p, computed, raw, u, r);
    if !p.emitTTL {
      r := r.(c5m := 0, c1h := 0);
    }
  }
}
