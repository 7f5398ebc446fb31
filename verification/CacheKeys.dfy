/** Prompt-cache keys. A request is flattened into canonical blocks; each prefix
    of the block list gets a fingerprint, the hash of its length-prefixed
    framing. The hash is taken to be collision free, so a fingerprint is modelled
    by the framing itself; that the framing is unambiguous is proved here.
 */
module CacheKeys {
  import opened Wrappers

  const NUL: char := '\0'

  // ------------------------------------------------------ decimal lengths

  function Digit(d: nat): (c: char)
    requires d < 10
    ensures c != NUL
  {
    "0123456789"[d]
  }

  function Decimal(n: nat): (s: string)
    ensures s != "" && NUL !in s
    ensures |s| == 1 <==> n < 10
  {
    if n < 10 then [Digit(n)] else Decimal(n / 10) + [Digit(n % 10)]
  }

  lemma {:induction false} DecimalInjective(m: nat, n: nat)
    requires Decimal(m) == Decimal(n)
    ensures m == n
    decreases m
  {
    var s, t := Decimal(m), Decimal(n);
    assert s[|s| - 1] == Digit(m % 10) && t[|t| - 1] == Digit(n % 10);
    assert m % 10 == n % 10;
    if m >= 10 {
      assert Decimal(m / 10) == s[..|s| - 1] && Decimal(n / 10) == t[..|t| - 1];
      DecimalInjective(m / 10, n / 10);
    }
  }

  // --------------------------------------------------------------- framing

  /** What one block adds to the hashed stream. */
  function Frame(c: string): string
  {
    Decimal(|c|) + ([NUL] + (c + [NUL]))
  }

  function FrameAll(blocks: seq<string>): (r: string)
    ensures r == "" <==> blocks == []
  {
    if blocks == [] then "" else Frame(blocks[0]) + FrameAll(blocks[1..])
  }

  lemma {:induction false} FrameAllSnoc(blocks: seq<string>, c: string)
    ensures FrameAll(blocks + [c]) == FrameAll(blocks) + Frame(c)
  {
    if blocks == [] {
      assert blocks + [c] == [c] && [c][1..] == [];
      assert FrameAll([c]) == Frame(c) + FrameAll([]);
    } else {
      assert (blocks + [c])[1..] == blocks[1..] + [c];
      FrameAllSnoc(blocks[1..], c);
      assert Frame(blocks[0]) + (FrameAll(blocks[1..]) + Frame(c)) == FrameAll(blocks) + Frame(c);
    }
  }

  /** Two readings of one text up to its first NUL. */
  lemma SameUpToNul(a: string, x: string, b: string, y: string)
    requires NUL !in a && NUL !in b && a + ([NUL] + x) == b + ([NUL] + y)
    ensures a == b && x == y
  {
    var s := a + ([NUL] + x);
    assert s[|a|] == NUL && s[|b|] == NUL;
    assert forall i | 0 <= i < |a| :: s[i] == a[i];
    assert forall i | 0 <= i < |b| :: s[i] == b[i];
    assert a == s[..|a|] && b == s[..|b|];
    assert x == s[|a| + 1..] && y == s[|b| + 1..];
  }

  /** A frame can be cut off the front in only one way. */
  lemma FrameCutsOff(c: string, x: string, d: string, y: string)
    requires Frame(c) + x == Frame(d) + y
    ensures c == d && x == y
  {
    assert Frame(c) + x == Decimal(|c|) + ([NUL] + (c + [NUL] + x));
    assert Frame(d) + y == Decimal(|d|) + ([NUL] + (d + [NUL] + y));
    SameUpToNul(Decimal(|c|), c + [NUL] + x, Decimal(|d|), d + [NUL] + y);
    DecimalInjective(|c|, |d|);
    var s := c + [NUL] + x;
    assert c == s[..|c|] && d == s[..|d|];
    assert x == s[|c| + 1..] && y == s[|d| + 1..];
  }

  /** Different block lists have different fingerprints. */
  lemma {:induction false} FramingInjective(a: seq<string>, b: seq<string>)
    requires FrameAll(a) == FrameAll(b)
    ensures a == b
    decreases |a|
  {
    if a != [] {
      FrameCutsOff(a[0], FrameAll(a[1..]), b[0], FrameAll(b[1..]));
      FramingInjective(a[1..], b[1..]);
      assert a == [a[0]] + a[1..] && b == [b[0]] + b[1..];
    }
  }

  // --------------------------------------------------------------- profiles

  /** A flattened block: canonical text, token count, requested lifetime (0 for
      none), and whether it ends a message. */
  datatype Block = Block(canonical: string, tokens: nat, ttl: nat, messageEnd: bool)

  datatype Point = Point(fingerprint: string, tokens: nat)

  datatype Profile = Profile(ttls: seq<nat>, points: seq<Point>, total: nat)

  const DEFAULT_TTL: nat := 300000
  const HOUR_TTL: nat := 3600000

  function Canonicals(blocks: seq<Block>): seq<string>
  {
    seq(|blocks|, i requires 0 <= i < |blocks| => blocks[i].canonical)
  }

  function TokenSum(blocks: seq<Block>): nat
  {
    if blocks == [] then 0 else TokenSum(blocks[..|blocks| - 1]) + blocks[|blocks| - 1].tokens
  }

  /** One point per prefix: its fingerprint and its cumulative tokens. */
  predicate PointsOf(points: seq<Point>, blocks: seq<Block>)
  {
    |points| == |blocks| &&
    forall i | 0 <= i < |points| ::
      points[i] == Point(FrameAll(Canonicals(blocks[..i + 1])), TokenSum(blocks[..i + 1]))
  }

  /** The lifetimes of the breakpoints: explicit ones, and message ends once a
      lifetime is active. */
  function Breakpoints(blocks: seq<Block>): (seq<nat>, nat)
  {
    if blocks == [] then ([], 0)
    else
      var (ttls, active) := Breakpoints(blocks[..|blocks| - 1]);
      var b := blocks[|blocks| - 1];
      if b.ttl > 0 then (ttls + [b.ttl], b.ttl)
      else if b.messageEnd && active > 0 then (ttls + [active], active)
      else (ttls, active)
  }

  lemma NextPrefix(blocks: seq<Block>, i: nat)
    requires i < |blocks|
    ensures blocks[..i + 1][..i] == blocks[..i] && blocks[..i + 1][i] == blocks[i]
    ensures FrameAll(Canonicals(blocks[..i + 1])) == FrameAll(Canonicals(blocks[..i])) + Frame(blocks[i].canonical)
    ensures TokenSum(blocks[..i + 1]) == TokenSum(blocks[..i]) + blocks[i].tokens
  {
    assert blocks[..i + 1][..i] == blocks[..i];
    assert Canonicals(blocks[..i + 1]) == Canonicals(blocks[..i]) + [blocks[i].canonical];
    FrameAllSnoc(Canonicals(blocks[..i]), blocks[i].canonical);
  }

  /** The points of the first `n` prefixes. */
  ghost predicate PointsTo(points: seq<Point>, blocks: seq<Block>, n: nat)
  {
    n <= |blocks| && PointsOf(points, blocks[..n])
  }

  lemma PointsToNext(points: seq<Point>, blocks: seq<Block>, n: nat)
    requires n < |blocks| && PointsTo(points, blocks, n)
    ensures var p := Point(FrameAll(Canonicals(blocks[..n + 1])), TokenSum(blocks[..n + 1]));
            PointsTo(points + [p], blocks, n + 1)
  {
    var p := Point(FrameAll(Canonicals(blocks[..n + 1])), TokenSum(blocks[..n + 1]));
    forall i | 0 <= i < n + 1
      ensures (points + [p])[i] ==
              Point(FrameAll(Canonicals(blocks[..n + 1][..i + 1])), TokenSum(blocks[..n + 1][..i + 1]))
    {
      assert blocks[..n + 1][..i + 1] == blocks[..i + 1];
      if i < n {
        assert blocks[..n][..i + 1] == blocks[..i + 1];
      }
    }
  }

  method BuildProfile(blocks: seq<Block>, totalInput: nat, synthesize: bool) returns (r: Option<Profile>)
    ensures r.Some? <==> blocks != [] && (Breakpoints(blocks).0 != [] || synthesize)
    ensures r.Some? ==>
              PointsOf(r.value.points, blocks) &&
              r.value.total == (if totalInput > TokenSum(blocks) then totalInput else TokenSum(blocks)) &&
              r.value.ttls == (if Breakpoints(blocks).0 == [] then [DEFAULT_TTL] else Breakpoints(blocks).0)
  {
    if blocks == [] {
      return None;
    }
    var ttls, points: seq<Point> := [], [];
    var hashed, tokens, active := "", 0, 0;
    for i := 0 to |blocks|
      invariant hashed == FrameAll(Canonicals(blocks[..i])) && tokens == TokenSum(blocks[..i])
      invariant (ttls, active) == Breakpoints(blocks[..i])
      invariant PointsTo(points, blocks, i)
    {
      var b := blocks[i];
      NextPrefix(blocks, i);
      PointsToNext(points, blocks, i);
      hashed := hashed + Frame(b.canonical);
      tokens := tokens + b.tokens;
      points := points + [Point(hashed, tokens)];
      if b.ttl > 0 {
        active := b.ttl;
        ttls := ttls + [b.ttl];
      } else if b.messageEnd && active > 0 {
        ttls := ttls + [active];
      }
    }
    assert blocks[..|blocks|] == blocks;
    if ttls == [] && synthesize {
      ttls := [DEFAULT_TTL];
    }
    if ttls == [] {
      return None;
    }
    return Some(Profile(ttls, points, if totalInput > tokens then totalInput else tokens));
  }

  /** Equal fingerprints mean equal prefixes. */
  lemma SamePrefix(p: seq<Point>, a: seq<Block>, i: nat, q: seq<Point>, b: seq<Block>, j: nat)
    requires PointsOf(p, a) && PointsOf(q, b) && i < |p| && j < |q|
    requires p[i].fingerprint == q[j].fingerprint
    ensures i == j && Canonicals(a[..i + 1]) == Canonicals(b[..j + 1])
  {
    FramingInjective(Canonicals(a[..i + 1]), Canonicals(b[..j + 1]));
    assert |Canonicals(a[..i + 1])| == i + 1 && |Canonicals(b[..j + 1])| == j + 1;
  }
}
