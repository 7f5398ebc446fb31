/** What the figures of the prompt cache are: the target and the shares of it as
    approximations of exact proportions, and the lifetime a creation is booked on.
 */
module CacheTargets {
  import opened CacheKeys
  import opened PromptCache
  import opened PromptTracker

  // ----------------------------------------------------------------- rounding

  function Distance(x: real, y: real): real
  {
    if x < y then y - x else x - y
  }

  /** The value is the point of the interval nearest to `x`. */
  lemma ClampIsNearest(x: real, low: real, high: real, y: real)
    requires low <= y <= high
    ensures low <= Clamp(x, low, high) <= high && Distance(Clamp(x, low, high), x) <= Distance(y, x)
  {
  }

  lemma RoundIsNearest(x: real, m: int)
    ensures x - 0.5 < Round(x) as real <= x + 0.5
    ensures Round(x) < m <==> x + 0.5 < m as real
  {
  }

  // ------------------------------------------------------------------- target

  /** A non-zero target is the portion of the total, rounded, or all but one token;
      it is zero exactly when that is nothing or below the minimum. */
  lemma TargetExactly(total: nat, ratio: real, minTokens: nat)
    ensures var x, t := Portion(total, ratio), TargetTokens(total, ratio, minTokens);
            (t > 0 ==> Distance(t as real, x) <= 0.5 || (t == total - 1 && x > t as real)) &&
            (t == 0 <==> total <= 1 || x < 0.5 || x + 0.5 < minTokens as real || total - 1 < minTokens)
  {
    PortionExactly(total, ratio);
    FittedExactly(Portion(total, ratio), total, minTokens);
  }

  /** Ratios outside [0, 0.99] count as the nearer end. */
  lemma PortionExactly(total: nat, ratio: real)
    ensures ratio <= 0.0 ==> Portion(total, ratio) == 0.0
    ensures 0.0 <= ratio <= 0.99 ==> Portion(total, ratio) == total as real * ratio
    ensures ratio >= 0.99 ==> Portion(total, ratio) == total as real * 0.99
    ensures Portion(total, ratio) >= 0.0
  {
    ProductNotNegative(total as real, Clamp(ratio, 0.0, 0.99));
  }

  lemma FittedExactly(x: real, total: nat, minTokens: nat)
    requires x >= 0.0
    ensures var t := if total <= 1 then 0 else Fitted(Round(x), total, minTokens);
            (t > 0 ==> Distance(t as real, x) <= 0.5 || (t == total - 1 && x > t as real)) &&
            (t == 0 <==> total <= 1 || x < 0.5 || x + 0.5 < minTokens as real || total - 1 < minTokens)
  {
    RoundIsNearest(x, 1);
    RoundIsNearest(x, minTokens);
    RoundIsNearest(x, total - 1);
  }

  lemma ProductNotNegative(a: real, b: real)
    requires a >= 0.0 && b >= 0.0
    ensures a * b >= 0.0
  {
  }

  lemma ProductMonotone(a: real, b: real, c: real, d: real)
    requires 0.0 <= a <= c && 0.0 <= b <= d
    ensures 0.0 <= a * b <= c * d
  {
    assert a * b <= a * d;
    assert a * d <= c * d;
  }

  lemma RoundMonotone(x: real, y: real)
    requires x <= y
    ensures Round(x) <= Round(y)
  {
  }

  lemma PortionMonotone(total: nat, ratio: real, total': nat, ratio': real)
    requires total <= total' && ratio <= ratio'
    ensures Portion(total, ratio) <= Portion(total', ratio')
  {
    ProductMonotone(total as real, Clamp(ratio, 0.0, 0.99), total' as real, Clamp(ratio', 0.0, 0.99));
  }

  /** A higher ratio, a longer prompt or a lower minimum never lowers the target. */
  lemma TargetMonotone(total: nat, ratio: real, minTokens: nat, total': nat, ratio': real, minTokens': nat)
    requires total <= total' && ratio <= ratio' && minTokens' <= minTokens
    ensures TargetTokens(total, ratio, minTokens) <= TargetTokens(total', ratio', minTokens')
  {
    PortionMonotone(total, ratio, total', ratio');
    RoundMonotone(Portion(total, ratio), Portion(total', ratio'));
    FittedMonotone(Round(Portion(total, ratio)), total, minTokens, Round(Portion(total', ratio')), total', minTokens');
  }

  lemma FittedMonotone(t: int, total: nat, minTokens: nat, t': int, total': nat, minTokens': nat)
    requires t <= t' && total <= total' && minTokens' <= minTokens
    ensures total > 1 ==> Fitted(t, total, minTokens) <= Fitted(t', total', minTokens')
  {
  }

  function Lower(c: real): real
  {
    if c - 0.03 > 0.0 then c - 0.03 else 0.0
  }

  function Upper(c: real): real
  {
    if c + 0.03 < 0.99 then c + 0.03 else 0.99
  }

  /** A point between two others. */
  lemma Between(unit: real, low: real, high: real)
    requires 0.0 <= unit <= 1.0 && low <= high
    ensures low <= low + unit * (high - low) <= high
  {
    ProductMonotone(unit, high - low, 1.0, high - low);
  }

  /** The ratio in use stays within 0.03 of the requested one and within [0, 0.99]. */
  lemma RatioWithinSpread(unit: real, ratio: real)
    requires 0.0 <= unit <= 1.0
    ensures var c, e := Clamp(ratio, 0.0, 0.99), EffectiveRatio(unit, ratio);
            0.0 <= e <= 0.99 && Distance(e, c) <= 0.03 && (ratio <= 0.0 ==> e == 0.0)
  {
    var c := Clamp(ratio, 0.0, 0.99);
    if c > 0.0 {
      RatioIsBetween(unit, ratio);
    }
  }

  lemma RatioIsBetween(unit: real, ratio: real)
    requires 0.0 <= unit <= 1.0 && ratio > 0.0
    ensures var c := Clamp(ratio, 0.0, 0.99); Lower(c) <= EffectiveRatio(unit, ratio) <= Upper(c)
  {
    var c := Clamp(ratio, 0.0, 0.99);
    assert EffectiveRatio(unit, ratio) == Lower(c) + unit * (Upper(c) - Lower(c));
    Between(unit, Lower(c), Upper(c));
  }

  /** Within the spread the request's number decides: 0 is the lower end, 1 the upper
      one, and a larger number gives a larger ratio. */
  lemma RatioEnds(unit: real, unit': real, ratio: real)
    requires 0.0 <= unit <= unit' <= 1.0 && 0.0 < ratio <= 0.99
    ensures EffectiveRatio(0.0, ratio) == Lower(ratio) && EffectiveRatio(1.0, ratio) == Upper(ratio)
    ensures EffectiveRatio(unit, ratio) <= EffectiveRatio(unit', ratio)
  {
    var width := Upper(ratio) - Lower(ratio);
    assert 0.0 * width == 0.0 && 1.0 * width == width;
    ProductMonotone(unit, width, unit', width);
  }

  lemma RatioMonotone(unit: real, ratio: real, ratio': real)
    requires 0.0 <= unit <= 1.0 && ratio <= ratio'
    ensures EffectiveRatio(unit, ratio) <= EffectiveRatio(unit, ratio')
  {
    var c, c' := Clamp(ratio, 0.0, 0.99), Clamp(ratio', 0.0, 0.99);
    if c > 0.0 {
      Mixes(unit, Lower(c), Upper(c), Lower(c'), Upper(c'));
    } else {
      RatioWithinSpread(unit, ratio');
    }
  }

  lemma Mixes(unit: real, low: real, high: real, low': real, high': real)
    requires 0.0 <= unit <= 1.0 && low <= low' && high <= high' && low <= high && low' <= high'
    ensures low + unit * (high - low) <= low' + unit * (high' - low')
  {
    var up, down := high' - high, low' - low;
    ProductNotNegative(unit, up);
    ProductNotNegative(1.0 - unit, down);
    assert low' + unit * (high' - low') - (low + unit * (high - low)) == unit * up + (1.0 - unit) * down;
  }

  /** What a request is told it caches: within 3 percent of its total, and half a
      token, of the portion it asked for, or all but one token. */
  lemma TargetNearRequest(q: Request, prof: Profile)
    requires 0.0 <= q.unit <= 1.0
    ensures var t, n := Target(q, prof), prof.total;
            t > 0 ==> Distance(t as real, Portion(n, q.ratio)) <= n as real * 0.03 + 0.5 || t == n - 1
  {
    var e := EffectiveRatio(q.unit, q.ratio);
    RatioWithinSpread(q.unit, q.ratio);
    PortionNear(prof.total, e, q.ratio);
    TargetExactly(prof.total, e, q.minTokens);
    Triangle(Target(q, prof) as real, Portion(prof.total, e), Portion(prof.total, q.ratio));
  }

  lemma PortionNear(total: nat, e: real, ratio: real)
    requires 0.0 <= e <= 0.99 && Distance(e, Clamp(ratio, 0.0, 0.99)) <= 0.03
    ensures Distance(Portion(total, e), Portion(total, ratio)) <= total as real * 0.03
  {
    ScaledDistance(total as real, e, Clamp(ratio, 0.0, 0.99), 0.03);
  }

  lemma Triangle(x: real, y: real, z: real)
    ensures Distance(x, z) <= Distance(x, y) + Distance(y, z)
  {
  }

  lemma ScaledDistance(n: real, x: real, y: real, d: real)
    requires n >= 0.0 && Distance(x, y) <= d
    ensures Distance(n * x, n * y) <= n * d
  {
    if x < y {
      ProductMonotone(n, y - x, n, d);
      assert n * (y - x) == n * y - n * x;
    } else {
      ProductMonotone(n, x - y, n, d);
      assert n * (x - y) == n * x - n * y;
    }
  }

  // ------------------------------------------------------------------- shares

  /** A prefix of the prompt gets its proportion of the target, to half a token;
      longer prefixes and larger targets never get less. */
  lemma ShareIsProportional(tokens: nat, flat: nat, target: nat)
    requires 0 < flat && tokens <= flat
    ensures var s := Share(tokens, flat, target);
            s <= target && flat * (2 * s - 1) <= 2 * (tokens * target) <= flat * (2 * s + 1)
  {
    var x := ExactShare(tokens, flat, target);
    RoundWithin(x, target);
    HalfToken(tokens * target, flat, Round(x), x);
  }

  lemma RoundWithin(x: real, n: nat)
    requires 0.0 <= x <= n as real
    ensures 0 <= Round(x) <= n && x - 0.5 <= Round(x) as real <= x + 0.5
  {
  }

  lemma ExactShare(tokens: nat, flat: nat, target: nat) returns (x: real)
    requires 0 < flat && tokens <= flat
    ensures x == tokens as real / flat as real * target as real
    ensures 0.0 <= x <= target as real && x * flat as real == (tokens * target) as real
  {
    var y := tokens as real / flat as real;
    x := y * target as real;
    assert y * flat as real == tokens as real;
    assert 0.0 <= y <= 1.0;
    ProductMonotone(y, target as real, 1.0, target as real);
    CastProduct(tokens, target);
    assert x * flat as real == (y * flat as real) * target as real;
  }

  lemma HalfToken(product: nat, flat: nat, r: int, x: real)
    requires 0 < flat && x * flat as real == product as real && x - 0.5 <= r as real <= x + 0.5
    ensures flat * (2 * r - 1) <= 2 * product <= flat * (2 * r + 1)
  {
    OneSide(product, flat, 2 * r - 1, x);
    OneSide(product, flat, 2 * r + 1, x);
  }

  lemma OneSide(product: nat, flat: nat, a: int, x: real)
    requires 0 < flat && x * flat as real == product as real
    ensures a as real <= 2.0 * x ==> flat * a <= 2 * product
    ensures a as real >= 2.0 * x ==> flat * a >= 2 * product
  {
    var f := flat as real;
    if a as real <= 2.0 * x {
      Scaled(f, a as real, 2.0 * x);
    } else {
      Scaled(f, 2.0 * x, a as real);
    }
    assert f * (2.0 * x) == 2.0 * (x * f) == (2 * product) as real;
    CastProduct(flat, a);
    CastOrder(flat * a, 2 * product);
  }

  lemma CastOrder(a: int, b: int)
    ensures a as real <= b as real <==> a <= b
  {
  }

  lemma Scaled(f: real, a: real, b: real)
    requires f >= 0.0 && a <= b
    ensures f * a <= f * b
  {
    ProductNotNegative(f, b - a);
    assert f * (b - a) == f * b - f * a;
  }

  lemma CastProduct(a: int, b: int)
    ensures (a * b) as real == a as real * b as real
  {
  }

  lemma ShareMonotone(tokens: nat, flat: nat, target: nat, tokens': nat, target': nat)
    requires 0 < flat && tokens <= tokens' && target <= target'
    ensures Share(tokens, flat, target) <= Share(tokens', flat, target')
  {
    var y, y' := tokens as real / flat as real, tokens' as real / flat as real;
    assert 0.0 <= y <= y';
    ProductMonotone(y, target as real, y', target' as real);
    RoundMonotone(y * target as real, y' * target' as real);
  }

  // ---------------------------------------------------------------- lifetimes

  /** Where the last block stands that asks for a lifetime, |blocks| if none does. */
  ghost predicate LastAsking(blocks: seq<Block>, k: nat)
  {
    k <= |blocks| && (k < |blocks| ==> blocks[k].ttl > 0) &&
    if k < |blocks| then forall i | k < i < |blocks| :: blocks[i].ttl == 0
    else forall i | 0 <= i < |blocks| :: blocks[i].ttl == 0
  }

  /** The last breakpoint has the lifetime of the last block that asks for one, and
      there is a breakpoint exactly when some block does. */
  lemma {:induction false} LastBreakpoint(blocks: seq<Block>) returns (k: nat)
    ensures LastAsking(blocks, k)
    ensures var (ttls, active) := Breakpoints(blocks);
            if k < |blocks| then ttls != [] && ttls[|ttls| - 1] == active == blocks[k].ttl else ttls == [] && active == 0
  {
    k := 0;
    if blocks != [] {
      var n := |blocks| - 1;
      k := LastBreakpoint(blocks[..n]);
      assert forall i | 0 <= i < n :: blocks[..n][i] == blocks[i];
      if blocks[n].ttl > 0 {
        k := n;
      } else if k == n {
        k := |blocks|;
      }
    }
  }

  /** A creation is booked on the hour exactly when the last block of the prompt
      that asks for a lifetime asks for an hour or more. */
  lemma BookedLifetime(blocks: seq<Block>, prof: Profile, target: nat, read: nat) returns (k: nat)
    requires read <= target
    requires prof.ttls == if Breakpoints(blocks).0 == [] then [DEFAULT_TTL] else Breakpoints(blocks).0
    ensures LastAsking(blocks, k)
    ensures var u := UsageOf(prof, target, read);
            if k < |blocks| && blocks[k].ttl >= HOUR_TTL then u == Usage(read, target - read, 0, target - read)
            else u == Usage(read, target - read, target - read, 0)
  {
    k := LastBreakpoint(blocks);
  }

  /** The prefix a lookup hits has the minimum of tokens and a stored entry that has not
      expired, and no longer prefix has. */
  lemma HitExactly(index: Index, scope: string, points: seq<Point>, minTokens: nat, now: nat, hit: int, j: nat)
    requires IsLongest(index, scope, points, minTokens, now, hit) && j < |points|
    ensures var f := points[j].fingerprint;
            var usable := points[j].tokens >= minTokens && scope in index && f in index[scope] && now < index[scope][f].expires;
            (j == hit ==> usable) && (j > hit ==> !usable)
  {
  }
}
