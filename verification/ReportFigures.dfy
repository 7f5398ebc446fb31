/** What the projected usage figures are: how far inputs are amplified, how much of
    them is simulated as cached, and how much sampling leaves of a field.
 */
module ReportFigures {
  import opened PromptCache
  import opened Reporter
  import CacheTargets

  // ------------------------------------------------------------- amplification

  /** An amplified input is the scaled one, rounded; above the simulated cap it is the
      cap less a jitter of at most 8 percent of it. */
  lemma AmplifyExactly(base: int, p: Profile, seed: nat)
    requires base > 1 && base >= p.scaleMin && p.tokenScale >= 1.0
    ensures var x, r := Scaled(base, p.tokenScale), Amplify(base, p, seed);
            if p.maxSimulated <= 1 || x + 0.5 < (p.maxSimulated + 1) as real then CacheTargets.Distance(r as real, x) <= 0.5
            else r <= p.maxSimulated && r as real >= p.maxSimulated as real * 0.92 - 0.5
  {
    ScaledGrows(base, p.tokenScale);
    CappedExactly(Scaled(base, p.tokenScale), base, p, seed);
  }

  lemma CappedExactly(x: real, base: int, p: Profile, seed: nat)
    requires x >= base as real
    ensures var r := Capped(Max(Round(x), base), p, seed);
            if p.maxSimulated <= 1 || x + 0.5 < (p.maxSimulated + 1) as real then CacheTargets.Distance(r as real, x) <= 0.5
            else r <= p.maxSimulated && r as real >= p.maxSimulated as real * 0.92 - 0.5
  {
    CacheTargets.RoundIsNearest(x, base);
    CacheTargets.RoundIsNearest(x, p.maxSimulated + 1);
    JitterBound(p, seed);
  }

  lemma ScaledGrows(base: int, scale: real)
    requires base >= 0 && scale >= 1.0
    ensures Scaled(base, scale) >= base as real
  {
    CacheTargets.ProductMonotone(base as real, 1.0, base as real, scale);
  }

  lemma JitterBound(p: Profile, seed: nat)
    ensures p.maxSimulated > 1 ==>
              CapJitter(p, seed) < p.maxSimulated && CapJitter(p, seed) as real <= p.maxSimulated as real * 0.08 + 0.5
  {
    if p.maxSimulated > 1 {
      CacheTargets.RoundIsNearest(p.maxSimulated as real * 0.08, 0);
      JitterTop(p, seed);
    }
  }

  lemma JitterTop(p: Profile, seed: nat)
    requires p.maxSimulated > 1
    ensures CapJitter(p, seed) <= Max(Min(Round(p.maxSimulated as real * 0.08), p.maxSimulated - 1), 0)
  {
    var top := Max(Min(Min(p.jitterMax, Round(p.maxSimulated as real * 0.08)), p.maxSimulated - 1), 0);
    if p.jitterMax > 0 && top > 0 {
      var low := Min(Max(p.jitterMin, 0), top);
      Remainder(seed, top - low + 1);
    }
  }

  lemma Remainder(x: nat, n: nat)
    requires n > 0
    ensures 0 <= x % n < n
  {
  }

  // ---------------------------------------------------------------- simulation

  /** The simulated cache use is the tracker's ratio of the amplified input, rounded. */
  lemma SimulatedExactly(sim: Simulation, total: int)
    ensures var x := Portion(Amplify(total, NormalProfile(sim.profile), sim.seed), sim.ratio);
            CacheTargets.Distance(SimulatedTarget(sim, total) as real, x) <= 0.5
  {
    NearestPortion(Amplify(total, NormalProfile(sim.profile), sim.seed), sim.ratio);
  }

  lemma NearestPortion(n: nat, ratio: real)
    ensures CacheTargets.Distance(Max(Round(Portion(n, ratio)), 0) as real, Portion(n, ratio)) <= 0.5
  {
    CacheTargets.PortionExactly(n, ratio);
    CacheTargets.RoundIsNearest(Portion(n, ratio), 0);
  }

  // ------------------------------------------------------------------ sampling

  /** A value between two percentages of the top, each at least one. */
  predicate InBand(v: int, top: nat, low: nat, high: nat)
  {
    Max(Percent(top, low), 1) <= v <= Max(Percent(top, high), Max(Percent(top, low), 1))
  }

  lemma PercentWithin(top: nat, low: nat, high: nat)
    requires low <= high <= 100
    ensures Percent(top, low) <= Percent(top, high) <= top
  {
    Times(top, low, high);
    Times(top, high, 100);
    QuotientMonotone(top * low, top * high);
    QuotientMonotone(top * high, top * 100);
  }

  lemma QuotientMonotone(x: nat, y: nat)
    requires x <= y
    ensures x / 100 <= y / 100
  {
  }

  /** Of a hundred rolls, seventy put a sampled field between 2 and 25 percent of the
      smaller of its value and its ceiling, twenty-five between 26 and 70 and the rest
      above. */
  lemma FieldBands(d: Dice, field: Policy, u: Figures, current: int, seed: nat, salt: nat)
    requires current > 0 && Goal(field) > 0
    ensures var v := SampleField(d, field, u, current, seed, salt).value;
            var roll, top := d.draw(seed, u, salt) % 100, Min(Ceiling(field), current);
            if roll < 70 then InBand(v, top, 2, 25) else if roll < 95 then InBand(v, top, 26, 70) else InBand(v, top, 71, 100)
  {
    var top := Min(Ceiling(field), current);
    var random := d.draw(seed, u, salt);
    var b := Range(random % 100, FIELD_BUCKETS);
    FieldRange(random % 100);
    PercentWithin(top, b.low, b.high);
    SampledInBand(d.again(random, salt), top, b.low, b.high);
  }

  lemma FieldRange(roll: nat)
    ensures Range(roll, FIELD_BUCKETS) ==
            if roll < 70 then Bucket(70, 2, 25) else if roll < 95 then Bucket(95, 26, 70) else Bucket(100, 71, 100)
  {
    var rest := FIELD_BUCKETS[1..];
    assert rest == [Bucket(95, 26, 70), Bucket(100, 71, 100)];
    assert rest[1..] == [Bucket(100, 71, 100)];
    assert Range(roll, rest[1..]) == Bucket(100, 71, 100);
    assert Range(roll, rest) == if roll < 95 then Bucket(95, 26, 70) else Bucket(100, 71, 100);
  }

  lemma SampledInBand(random: nat, top: nat, low: nat, high: nat)
    requires top >= 1 && Percent(top, low) <= top && Percent(top, high) <= top
    ensures var l := Max(Percent(top, low), 1);
            InBand(SampleInRange(random, l, Max(Percent(top, high), l), top), top, low, high)
  {
  }

  // ---------------------------------------------------------------- projection

  /** Where a field's value comes from. */
  predicate Follows(p: Policy, value: int, computed: int, raw: int)
  {
    match p.mode
    case Raw => value == raw
    case Preserve => value == computed
    case _ => if Goal(p) > 0 then value <= Ceiling(p) else true
  }

  /** What each mode means in a projection: raw figures stay raw, preserved ones are the
      computed ones, sampled ones are below their ceiling; sampled inputs start from
      the raw figure, other sampled fields from the computed one. */
  lemma ModesMean(p: Profile, computed: Figures, raw: Figures, r: Figures)
    requires Projects(p, computed, raw, r)
    ensures Follows(p.output, r.output, computed.output, raw.output)
    ensures Follows(p.creation, r.creation, computed.creation, raw.creation)
    ensures Follows(p.input, r.input, computed.input, raw.input)
    ensures !p.input.moveDelta ==> Follows(p.read, r.read, computed.read, raw.read)
    ensures p.input.mode != Preserve ==> r.input <= raw.input
    ensures p.output.mode != Raw ==> r.output <= computed.output
    ensures p.creation.mode != Raw ==> r.creation <= computed.creation
    ensures p.input.moveDelta && p.read.mode == Preserve && p.input.mode != Preserve ==>
              r.input + r.read == raw.input + computed.read
  {
  }
}
