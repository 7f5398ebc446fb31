/** When a lease is alive, told from the history alone, and what each script does
    to the counters of whole runs.
 */
module LeaseLife {
  import opened RuntimeState
  import opened LeaseCounter

  // --------------------------------------------------------- the life of a lease

  /** A lease last granted or renewed `age` ago, or gone for good. */
  datatype Life = Alive(age: nat) | Gone

  function Aged(ttl: nat, life: Life, op: Op, id: string): Life
  {
    if life.Gone? then Gone
    else if op == Renew(id) then Alive(0)
    else if op == GiveBack(id) then Gone
    else if op.Wait? then (if life.age + op.ms < ttl then Alive(life.age + op.ms) else Gone)
    else life
  }

  function LifeAfter(ttl: nat, life: Life, ops: seq<Op>, id: string): Life
  {
    if ops == [] then life else Aged(ttl, LifeAfter(ttl, life, ops[..|ops| - 1], id), ops[|ops| - 1], id)
  }

  /** The store knows of the lease what its history tells. */
  ghost predicate Follows(p: Params, sys: System, id: string, life: Life)
  {
    id in sys.granted && (id in sys.store.leases ==> Reserved(sys, id)) &&
    match life
    case Gone => !IsLive(sys.store, id)
    case Alive(age) => age < p.ttl && IsLive(sys.store, id) && sys.store.leases[id].expires + age == sys.store.now + p.ttl
  }

  predicate Reserved(sys: System, id: string)
    requires id in sys.granted && id in sys.store.leases
  {
    sys.granted[id] == Reservation(sys.store.leases[id].cred, sys.store.leases[id].model)
  }

  lemma StepFollows(p: Params, sys: System, op: Op, id: string, life: Life)
    requires p.ttl > 0 && Follows(p, sys, id, life)
    ensures Follows(p, Apply(p, sys, op), id, Aged(p.ttl, life, op, id))
  {
  }

  /** Over any run a lease is alive exactly when it was not given back and less than
      one lease duration passed between its renewals and since the last one. */
  lemma {:induction false} AliveExactly(p: Params, sys: System, ops: seq<Op>, id: string, life: Life)
    requires p.ttl > 0 && Follows(p, sys, id, life)
    ensures IsLive(Run(p, sys, ops).store, id) <==> LifeAfter(p.ttl, life, ops, id).Alive?
    ensures Follows(p, Run(p, sys, ops), id, LifeAfter(p.ttl, life, ops, id))
  {
    if ops != [] {
      var n := |ops| - 1;
      AliveExactly(p, sys, ops[..n], id, life);
      StepFollows(p, Run(p, sys, ops[..n]), ops[n], id, LifeAfter(p.ttl, life, ops[..n], id));
    }
  }

  /** A granted lease starts its life. */
  lemma GrantStarts(p: Params, sys: System, id: string, cred: string, model: string)
    requires p.ttl > 0 && id !in sys.granted && !Refused(sys.store, cred, model, p.limit(cred))
    ensures Follows(p, Apply(p, sys, TryReserve(id, cred, model)), id, Alive(0))
  {
  }

  /** So does a live lease that is renewed. */
  lemma RenewalStarts(p: Params, before: seq<Op>, id: string)
    requires p.ttl > 0 && IsLive(Run(p, EMPTY, before).store, id)
    ensures Follows(p, Apply(p, Run(p, EMPTY, before), Renew(id)), id, Alive(0))
  {
    EmptyOk(p);
    RunKeeps(p, EMPTY, before);
  }

  /** The time that passes from the `i`-th step to the `j`-th. */
  function Waited(ops: seq<Op>, i: nat, j: nat): nat
    requires i <= j <= |ops|
  {
    if i == j then 0 else Waited(ops, i, j - 1) + if ops[j - 1].Wait? then ops[j - 1].ms else 0
  }

  predicate Unrenewed(ops: seq<Op>, i: nat, j: nat, id: string)
    requires i <= j <= |ops|
  {
    forall k | i <= k < j :: ops[k] != Renew(id)
  }

  /** Not given back, and never one lease duration without a renewal. */
  ghost predicate Tended(ttl: nat, ops: seq<Op>, id: string)
  {
    (forall k | 0 <= k < |ops| :: ops[k] != GiveBack(id)) &&
    forall i, j | 0 <= i <= j <= |ops| && Unrenewed(ops, i, j, id) :: Waited(ops, i, j) < ttl
  }

  lemma LifeNext(ttl: nat, life: Life, ops: seq<Op>, n: nat, id: string)
    requires n < |ops|
    ensures LifeAfter(ttl, life, ops[..n + 1], id) == Aged(ttl, LifeAfter(ttl, life, ops[..n], id), ops[n], id)
  {
    assert ops[..n + 1][..n] == ops[..n];
  }

  /** A tended lease lives; its age is the time since the last renewal, at `i`. */
  lemma {:induction false} TendedLives(ttl: nat, ops: seq<Op>, n: nat, id: string) returns (i: nat)
    requires ttl > 0 && n <= |ops| && Tended(ttl, ops, id)
    ensures i <= n && Unrenewed(ops, i, n, id)
    ensures LifeAfter(ttl, Alive(0), ops[..n], id) == Alive(Waited(ops, i, n))
  {
    if n == 0 {
      i := 0;
    } else {
      i := TendedLives(ttl, ops, n - 1, id);
      LifeNext(ttl, Alive(0), ops, n - 1, id);
      if ops[n - 1] == Renew(id) {
        i := n;
      } else {
        assert Unrenewed(ops, i, n, id);
        assert Waited(ops, i, n) < ttl;
      }
    }
  }

  /** A reservation, once granted in any run, is live as long as its holder renews
      it in time and does not give it back, whatever else happens. */
  lemma TendedLeaseIsLive(p: Params, before: seq<Op>, id: string, cred: string, model: string, ops: seq<Op>)
    requires p.ttl > 0 && Tended(p.ttl, ops, id)
    requires var sys := Run(p, EMPTY, before); id !in sys.granted && !Refused(sys.store, cred, model, p.limit(cred))
    ensures var sys := Apply(p, Run(p, EMPTY, before), TryReserve(id, cred, model));
            IsLive(Run(p, sys, ops).store, id)
  {
    var sys := Apply(p, Run(p, EMPTY, before), TryReserve(id, cred, model));
    GrantStarts(p, Run(p, EMPTY, before), id, cred, model);
    AliveExactly(p, sys, ops, id, Alive(0));
    var _ := TendedLives(p.ttl, ops, |ops|, id);
    assert ops[..|ops|] == ops;
  }

  /** A live lease that is renewed stays live for less than one lease duration more,
      whatever else happens, unless it is given back. */
  lemma RenewedLeaseIsLive(p: Params, before: seq<Op>, id: string, ops: seq<Op>)
    requires p.ttl > 0 && IsLive(Run(p, EMPTY, before).store, id)
    requires GiveBack(id) !in ops && Waited(ops, 0, |ops|) < p.ttl
    ensures IsLive(Run(p, Apply(p, Run(p, EMPTY, before), Renew(id)), ops).store, id)
  {
    RenewalStarts(p, before, id);
    AliveExactly(p, Apply(p, Run(p, EMPTY, before), Renew(id)), ops, id, Alive(0));
    ShortLife(p.ttl, ops, |ops|, id);
    assert ops[..|ops|] == ops;
  }

  lemma {:induction false} ShortLife(ttl: nat, ops: seq<Op>, n: nat, id: string)
    requires n <= |ops| && GiveBack(id) !in ops && Waited(ops, 0, n) < ttl
    ensures var life := LifeAfter(ttl, Alive(0), ops[..n], id); life.Alive? && life.age <= Waited(ops, 0, n)
  {
    if n > 0 {
      ShortLife(ttl, ops, n - 1, id);
      LifeNext(ttl, Alive(0), ops, n - 1, id);
      assert ops[n - 1] in ops;
    }
  }

  // --------------------------------------------------------- what a step counts

  /** All counters but those of the account, and of the account all but the
      model's, are as before. */
  ghost predicate OthersSame(s: Store, s': Store, cred: string, model: string)
  {
    (forall c | c != cred :: InFlight(s', c) == InFlight(s, c)) &&
    forall c, m | c != cred || m != model :: ModelInFlight(s', c, m) == ModelInFlight(s, c, m)
  }

  /** Neither the account nor the model cools down, and live and lapsed leases
      together are below the limit. */
  ghost predicate Admits(p: Params, sys: System, cred: string, model: string)
  {
    !CoolingDown(sys.store, cred, "") && !(model != "" && CoolingDown(sys.store, cred, model)) &&
    (p.limit(cred) <= 0 || |LiveLeases(sys.store, cred)| + |Lapsed(sys, cred)| < p.limit(cred))
  }

  /** A reservation is granted exactly when the account admits it; it then counts
      one more for the account and its model, and otherwise changes nothing. */
  lemma GrantedExactly(p: Params, ops: seq<Op>, id: string, cred: string, model: string)
    requires p.ttl > 0 && id !in Run(p, EMPTY, ops).granted
    ensures var sys := Run(p, EMPTY, ops);
            var sys' := Apply(p, sys, TryReserve(id, cred, model));
            if Admits(p, sys, cred, model) then IsLive(sys'.store, id) && OneMoreCounted(sys.store, sys'.store, cred, model)
            else sys' == sys && !IsLive(sys.store, id)
  {
    var sys := Run(p, EMPTY, ops);
    CounterIsExact(p, ops, cred);
    EmptyOk(p);
    RunKeeps(p, EMPTY, ops);
    assert id !in sys.store.leases;
    assert Admits(p, sys, cred, model) <==> !Refused(sys.store, cred, model, p.limit(cred));
    GrantCounts(p, sys.store, id, cred, model);
  }

  ghost predicate OneMoreCounted(s: Store, s': Store, cred: string, model: string)
  {
    InFlight(s', cred) == InFlight(s, cred) + 1 && OthersSame(s, s', cred, model) &&
    (model != "" ==> ModelInFlight(s', cred, model) == ModelInFlight(s, cred, model) + 1)
  }

  lemma GrantCounts(p: Params, s: Store, id: string, cred: string, model: string)
    requires p.ttl > 0
    ensures OneMoreCounted(s, Grant(s, id, cred, model, p.ttl), cred, model)
  {
  }

  /** Giving back a live lease counts one less for its account and its model. */
  lemma ReleaseLowers(p: Params, ops: seq<Op>, id: string)
    requires p.ttl > 0 && IsLive(Run(p, EMPTY, ops).store, id)
    ensures var sys := Run(p, EMPTY, ops);
            var s, s' := sys.store, Apply(p, sys, GiveBack(id)).store;
            s'.leases == s.leases - {id} && OneMoreCounted(s', s, s.leases[id].cred, s.leases[id].model)
  {
    EmptyOk(p);
    RunKeeps(p, EMPTY, ops);
    var s := Run(p, EMPTY, ops).store;
    var l := s.leases[id];
    assert AccountOk(p, s, l.cred);
    assert id in LiveLeases(s, l.cred) && id in LiveFor(s, l.cred, l.model);
    assert l.model != "" ==> |LiveFor(s, l.cred, l.model)| <= ModelInFlight(s, l.cred, l.model);
    ReleaseCounts(s, id, l.cred, l.model);
  }

  lemma ReleaseCounts(s: Store, id: string, cred: string, model: string)
    requires IsLive(s, id) && InFlight(s, cred) > 0 && (model != "" ==> ModelInFlight(s, cred, model) > 0)
    ensures OneMoreCounted(Release(s, id, cred, model), s, cred, model)
  {
  }

  lemma {:induction false} RunJoins(p: Params, sys: System, a: seq<Op>, b: seq<Op>)
    ensures Run(p, Run(p, sys, a), b) == Run(p, sys, a + b)
  {
    if b == [] {
      assert a + b == a;
    } else {
      var n := |b| - 1;
      RunJoins(p, sys, a, b[..n]);
      assert (a + b)[..|a + b| - 1] == a + b[..n];
    }
  }

  /** Reserved, tended and given back in any run: the account's counter and the
      model's fall by one. */
  lemma TendedRelease(p: Params, before: seq<Op>, id: string, cred: string, model: string, ops: seq<Op>)
    requires p.ttl > 0 && Tended(p.ttl, ops, id)
    requires var sys := Run(p, EMPTY, before); id !in sys.granted && !Refused(sys.store, cred, model, p.limit(cred))
    ensures var sys := Run(p, Apply(p, Run(p, EMPTY, before), TryReserve(id, cred, model)), ops);
            OneMoreCounted(Apply(p, sys, GiveBack(id)).store, sys.store, cred, model)
  {
    var start := before + [TryReserve(id, cred, model)];
    var sys := Apply(p, Run(p, EMPTY, before), TryReserve(id, cred, model));
    RunSnoc(p, before, TryReserve(id, cred, model));
    RunJoins(p, EMPTY, start, ops);
    TendedLeaseIsLive(p, before, id, cred, model, ops);
    SameHolder(p, sys, ops, id);
    ReleaseLowers(p, start + ops, id);
    EmptyOk(p);
    RunKeeps(p, EMPTY, start + ops);
  }

  lemma {:induction false} SameHolder(p: Params, sys: System, ops: seq<Op>, id: string)
    requires id in sys.granted
    ensures var sys' := Run(p, sys, ops); id in sys'.granted && sys'.granted[id] == sys.granted[id]
  {
    if ops != [] {
      SameHolder(p, sys, ops[..|ops| - 1], id);
    }
  }

  /** A renewal changes no count. */
  lemma RenewalCountsSame(p: Params, sys: System, id: string)
    requires p.ttl > 0
    ensures var s, s' := sys.store, Apply(p, sys, Renew(id)).store;
            (forall c :: InFlight(s', c) == InFlight(s, c)) && forall c, m :: ModelInFlight(s', c, m) == ModelInFlight(s, c, m)
  {
  }

  // ----------------------------------------------------------------- cooldowns

  /** How long the cooldown of an account (model "") or of a model still lasts. */
  function Left(left: nat, op: Op, cred: string, model: string): nat
  {
    match op
    case CoolDown(c, m, ms) => if ms > 0 && (c, m) == (cred, model) then ms else left
    case WarmUp(c, m) => if c == cred && (model == "" || m == model) then 0 else left
    case Wait(ms) => if ms < left then left - ms else 0
    case _ => left
  }

  function LeftAfter(left: nat, ops: seq<Op>, cred: string, model: string): nat
  {
    if ops == [] then left else Left(LeftAfter(left, ops[..|ops| - 1], cred, model), ops[|ops| - 1], cred, model)
  }

  ghost predicate CoolsFor(s: Store, cred: string, model: string, left: nat)
  {
    if left == 0 then !CoolingDown(s, cred, model)
    else (cred, model) in s.cooldowns && s.cooldowns[(cred, model)] == s.now + left
  }

  lemma StepCools(p: Params, sys: System, op: Op, cred: string, model: string, left: nat)
    requires cred != "" && CoolsFor(sys.store, cred, model, left)
    ensures CoolsFor(Apply(p, sys, op).store, cred, model, Left(left, op, cred, model))
  {
  }

  /** A cooldown lasts exactly as long as it was set for, unless it is set anew or
      cleared for the account, and with it for the model named. */
  lemma {:induction false} CooldownLasts(p: Params, sys: System, ops: seq<Op>, cred: string, model: string, left: nat)
    requires cred != "" && CoolsFor(sys.store, cred, model, left)
    ensures CoolsFor(Run(p, sys, ops).store, cred, model, LeftAfter(left, ops, cred, model))
    ensures CoolingDown(Run(p, sys, ops).store, cred, model) <==> LeftAfter(left, ops, cred, model) > 0
  {
    if ops != [] {
      var n := |ops| - 1;
      CooldownLasts(p, sys, ops[..n], cred, model, left);
      StepCools(p, Run(p, sys, ops[..n]), ops[n], cred, model, LeftAfter(left, ops[..n], cred, model));
    }
  }
}
