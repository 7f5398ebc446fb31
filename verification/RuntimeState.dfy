/** In-flight reservations shared by many processes through Redis. Each of the
    three scripts is atomic; keys expire; processes may crash at any time, which
    is to say that they may never call again. One lease duration is in use, and
    each account has a fixed limit (zero or less: no limit).
 */
module RuntimeState {
  import opened Collections

  datatype Counter = Counter(value: nat, expires: nat)
  datatype Lease = Lease(cred: string, model: string, expires: nat)

  /** The keys the scripts work on. A key whose time has come does not exist. */
  datatype Store = Store(
    now: nat,
    account: map<string, Counter>,
    model: map<string, map<string, Counter>>,    // by account, then model
    leases: map<string, Lease>,
    cooldowns: map<(string, string), nat>)       // model "" is the whole account

  function LiveValue<K>(m: map<K, Counter>, now: nat, k: K): nat
  {
    if k in m && now < m[k].expires then m[k].value else 0
  }

  function InFlight(s: Store, cred: string): nat
  {
    LiveValue(s.account, s.now, cred)
  }

  /** The model counters of one account. */
  function Models(m: map<string, map<string, Counter>>, cred: string): map<string, Counter>
  {
    if cred in m then m[cred] else map[]
  }

  function ModelInFlight(s: Store, cred: string, model: string): nat
  {
    LiveValue(Models(s.model, cred), s.now, model)
  }

  predicate IsLive(s: Store, id: string)
  {
    id in s.leases && s.now < s.leases[id].expires
  }

  predicate CoolingDown(s: Store, cred: string, model: string)
  {
    (cred, model) in s.cooldowns && s.now < s.cooldowns[(cred, model)]
  }

  // ----------------------------------------------------------- the scripts

  function Bumped<K>(m: map<K, Counter>, now: nat, ttl: nat, k: K): map<K, Counter>
  {
    m[k := Counter(LiveValue(m, now, k) + 1, now + ttl)]
  }

  function Renewed<K>(m: map<K, Counter>, now: nat, ttl: nat, k: K): map<K, Counter>
  {
    if k in m && now < m[k].expires then m[k := m[k].(expires := now + ttl)] else m
  }

  function Dropped<K>(m: map<K, Counter>, now: nat, k: K): map<K, Counter>
  {
    var v := LiveValue(m, now, k);
    if v > 1 then m[k := m[k].(value := v - 1)] else m - {k}
  }

  predicate Refused(s: Store, cred: string, model: string, limit: int)
  {
    CoolingDown(s, cred, "") || (model != "" && CoolingDown(s, cred, model)) ||
    (limit > 0 && InFlight(s, cred) >= limit)
  }

  /** What a reservation that is not refused does. */
  function Grant(s: Store, id: string, cred: string, model: string, ttl: nat): Store
  {
    s.(account := Bumped(s.account, s.now, ttl, cred),
       model := if model == "" then s.model else s.model[cred := Bumped(Models(s.model, cred), s.now, ttl, model)],
       leases := s.leases[id := Lease(cred, model, s.now + ttl)])
  }

  function Reserve(s: Store, id: string, cred: string, model: string, limit: int, ttl: nat): Store
  {
    if Refused(s, cred, model, limit) then s else Grant(s, id, cred, model, ttl)
  }

  function Extend(s: Store, id: string, cred: string, model: string, ttl: nat): Store
  {
    if !IsLive(s, id) then s
    else s.(account := Renewed(s.account, s.now, ttl, cred),
            model := if model == "" then s.model else s.model[cred := Renewed(Models(s.model, cred), s.now, ttl, model)],
            leases := s.leases[id := s.leases[id].(expires := s.now + ttl)])
  }

  function Release(s: Store, id: string, cred: string, model: string): Store
  {
    if !IsLive(s, id) then s
    else s.(account := Dropped(s.account, s.now, cred),
            model := if model == "" then s.model else s.model[cred := Dropped(Models(s.model, cred), s.now, model)],
            leases := s.leases - {id})
  }

  /** The scripts as they run, command by command. */
  class RedisRuntimeStore {
    const ttl: nat
    var now: nat
    var account: map<string, Counter>
    var modelInFlight: map<string, map<string, Counter>>
    var leases: map<string, Lease>
    var cooldowns: map<(string, string), nat>

    ghost function View(): Store
      reads this
    {
      Store(now, account, modelInFlight, leases, cooldowns)
    }

    method ReserveScript(id: string, cred: string, model: string, limit: int) returns (ok: bool)
      modifies this
      ensures View() == Reserve(old(View()), id, cred, model, limit, ttl)
      ensures ok == !Refused(old(View()), cred, model, limit)
    {
      if (cred, "") in cooldowns && now < cooldowns[(cred, "")] {
        return false;
      }
      if model != "" && (cred, model) in cooldowns && now < cooldowns[(cred, model)] {
        return false;
      }
      var current := LiveValue(account, now, cred);
      if limit > 0 && current >= limit {
        return false;
      }
      account := account[cred := Counter(current + 1, now + ttl)];
      if model != "" {
        var models := Models(modelInFlight, cred);
        var m := LiveValue(models, now, model);
        modelInFlight := modelInFlight[cred := models[model := Counter(m + 1, now + ttl)]];
      }
      leases := leases[id := Lease(cred, model, now + ttl)];
      return true;
    }

    method ExtendScript(id: string, cred: string, model: string) returns (ok: bool)
      modifies this
      ensures View() == Extend(old(View()), id, cred, model, ttl)
      ensures ok == IsLive(old(View()), id)
    {
      if id !in leases || now >= leases[id].expires {
        return false;
      }
      leases := leases[id := leases[id].(expires := now + ttl)];
      account := Renewed(account, now, ttl, cred);
      if model != "" {
        modelInFlight := modelInFlight[cred := Renewed(Models(modelInFlight, cred), now, ttl, model)];
      }
      return true;
    }

    method ReleaseScript(id: string, cred: string, model: string) returns (ok: bool)
      modifies this
      ensures View() == Release(old(View()), id, cred, model)
      ensures ok == IsLive(old(View()), id)
    {
      if id !in leases || now >= leases[id].expires {
        return false;
      }
      leases := leases - {id};
      var n := LiveValue(account, now, cred);
      if n > 1 {
        account := account[cred := account[cred].(value := n - 1)];
      } else {
        account := account - {cred};
      }
      if model != "" {
        var models := Models(modelInFlight, cred);
        var m := LiveValue(models, now, model);
        if m > 1 {
          modelInFlight := modelInFlight[cred := models[model := models[model].(value := m - 1)]];
        } else {
          modelInFlight := modelInFlight[cred := models - {model}];
        }
      }
      return true;
    }
  }

  // -------------------------------------------------------------- all runs

  datatype Reservation = Reservation(cred: string, model: string)

  /** The store together with its history: every reservation ever granted, which
      processes may hold; for each account those granted since its counter was
      last created; and those released while live. Identifiers are never issued
      twice. */
  datatype System = System(store: Store, granted: map<string, Reservation>,
                           period: map<string, set<string>>, returned: set<string>)

  /** The account's counter exists. */
  predicate Counting(s: Store, cred: string)
  {
    cred in s.account && s.now < s.account[cred].expires
  }

  /** The reservations granted since the account's counter was created. */
  function Period(sys: System, cred: string): set<string>
  {
    if Counting(sys.store, cred) && cred in sys.period then sys.period[cred] else {}
  }

  datatype Op =
    | TryReserve(id: string, cred: string, model: string)
    | Renew(id: string)
    | GiveBack(id: string)
    | Wait(ms: nat)
    | CoolDown(cred: string, model: string, ms: nat)
    | WarmUp(cred: string, model: string)

  datatype Params = Params(ttl: nat, limit: string -> int)

  function Apply(p: Params, sys: System, op: Op): System
  {
    var s := sys.store;
    match op
    case TryReserve(id, cred, model) =>
      if id in sys.granted || Refused(s, cred, model, p.limit(cred)) then sys
      else sys.(store := Grant(s, id, cred, model, p.ttl), granted := sys.granted[id := Reservation(cred, model)],
                period := sys.period[cred := Period(sys, cred) + {id}])
    case Renew(id) =>
      if id !in sys.granted then sys
      else sys.(store := Extend(s, id, sys.granted[id].cred, sys.granted[id].model, p.ttl))
    case GiveBack(id) =>
      if id !in sys.granted then sys
      else sys.(store := Release(s, id, sys.granted[id].cred, sys.granted[id].model),
                returned := if IsLive(s, id) then sys.returned + {id} else sys.returned)
    case Wait(ms) => sys.(store := s.(now := s.now + ms))
    case CoolDown(cred, model, ms) =>
      if cred == "" || ms == 0 then sys
      else sys.(store := s.(cooldowns := s.cooldowns[(cred, model) := s.now + ms]))
    case WarmUp(cred, model) =>
      if cred == "" then sys else sys.(store := s.(cooldowns := s.cooldowns - {(cred, "")} - {(cred, model)}))
  }

  function Run(p: Params, sys: System, ops: seq<Op>): System
  {
    if ops == [] then sys else Apply(p, Run(p, sys, ops[..|ops| - 1]), ops[|ops| - 1])
  }

  const EMPTY := System(Store(0, map[], map[], map[], map[]), map[], map[], {})

  // ------------------------------------------------------------ invariants

  ghost function LiveLeases(s: Store, cred: string): set<string>
  {
    set id | id in s.leases && s.now < s.leases[id].expires && s.leases[id].cred == cred
  }

  ghost function LiveFor(s: Store, cred: string, model: string): set<string>
  {
    set id | id in LiveLeases(s, cred) && s.leases[id].model == model
  }

  /** Sum of a finite map of counts. */
  ghost function Total(m: map<string, nat>): nat
    decreases |m|
  {
    if m == map[] then 0
    else
      var k :| k in m;
      m[k] + Total(m - {k})
  }

  /** The values of those counters that have not expired. */
  ghost function LiveCounts(m: map<string, Counter>, now: nat): map<string, nat>
  {
    map k | k in m && now < m[k].expires :: m[k].value
  }

  ghost function ModelTotal(s: Store, cred: string): nat
  {
    Total(LiveCounts(Models(s.model, cred), s.now))
  }

  /** A lease expires no later than the counters it is counted in. */
  ghost predicate LeaseCovered(s: Store, l: Lease)
  {
    l.cred in s.account && l.expires <= s.account[l.cred].expires &&
    (l.model != "" ==> var ms := Models(s.model, l.cred);
                       l.model in ms && l.expires <= ms[l.model].expires)
  }

  /** No key of the account outlives its counter, and none is given more than
      one lease duration. */
  ghost predicate Timely(p: Params, s: Store, cred: string)
  {
    (cred in s.account ==> s.account[cred].expires <= s.now + p.ttl) &&
    (forall id | id in LiveLeases(s, cred) :: LeaseCovered(s, s.leases[id])) &&
    forall m | m in Models(s.model, cred) :: ModelTimely(s, cred, m)
  }

  ghost predicate ModelsCounted(s: Store, cred: string)
  {
    forall m | m != "" :: |LiveFor(s, cred, m)| <= ModelInFlight(s, cred, m)
  }

  ghost predicate Counted(p: Params, s: Store, cred: string)
  {
    |LiveLeases(s, cred)| <= InFlight(s, cred) &&
    (p.limit(cred) > 0 ==> InFlight(s, cred) <= p.limit(cred)) &&
    ModelTotal(s, cred) + |LiveFor(s, cred, "")| <= InFlight(s, cred) &&
    ModelsCounted(s, cred)
  }

  ghost predicate AccountOk(p: Params, s: Store, cred: string)
  {
    Timely(p, s, cred) && Counted(p, s, cred)
  }

  ghost predicate Held(sys: System)
  {
    forall id | id in sys.store.leases ::
      id in sys.granted && sys.granted[id] == Reservation(sys.store.leases[id].cred, sys.store.leases[id].model)
  }

  ghost predicate Inv(p: Params, sys: System)
  {
    Held(sys) && forall cred :: AccountOk(p, sys.store, cred)
  }

  // ------------------------------------------------------------------ sums

  lemma {:induction false} TotalRemove(m: map<string, nat>, k: string)
    requires k in m
    ensures Total(m) == m[k] + Total(m - {k})
    decreases |m|
  {
    var j :| j in m && Total(m) == m[j] + Total(m - {j});
    if j != k {
      TotalRemove(m - {j}, k);
      TotalRemove(m - {k}, j);
      assert m - {j} - {k} == m - {k} - {j};
    }
  }

  lemma TotalUpdate(m: map<string, nat>, k: string, v: nat)
    ensures Total(m[k := v]) == Total(m - {k}) + v
    ensures k !in m ==> Total(m - {k}) == Total(m)
  {
    TotalRemove(m[k := v], k);
    assert m[k := v] - {k} == m - {k};
    if k !in m {
      assert m - {k} == m;
    }
  }

  lemma {:induction false} TotalSub(a: map<string, nat>, b: map<string, nat>)
    requires forall k | k in a :: k in b && a[k] == b[k]
    ensures Total(a) <= Total(b)
    decreases |a|
  {
    if a != map[] {
      var k :| k in a;
      TotalRemove(a, k);
      TotalRemove(b, k);
      TotalSub(a - {k}, b - {k});
    }
  }

  // --------------------------------------------------------- one account

  /** Everything `AccountOk` looks at is the same in both stores. */
  ghost predicate SameAccount(s: Store, s': Store, cred: string)
  {
    s'.now == s.now &&
    (cred in s'.account <==> cred in s.account) && (cred in s.account ==> s'.account[cred] == s.account[cred]) &&
    Models(s'.model, cred) == Models(s.model, cred) &&
    LiveLeases(s', cred) == LiveLeases(s, cred) &&
    forall id | id in LiveLeases(s, cred) :: s'.leases[id] == s.leases[id]
  }

  lemma SameAccountOk(p: Params, s: Store, s': Store, cred: string)
    requires SameAccount(s, s', cred) && AccountOk(p, s, cred)
    ensures AccountOk(p, s', cred)
  {
    forall m ensures LiveFor(s', cred, m) == LiveFor(s, cred, m) {}
    forall m | m != "" ensures |LiveFor(s', cred, m)| <= ModelInFlight(s', cred, m) {
      assert |LiveFor(s, cred, m)| <= ModelInFlight(s, cred, m);
    }
    forall id | id in LiveLeases(s', cred) ensures LeaseCovered(s', s'.leases[id]) {
      assert LeaseCovered(s, s.leases[id]);
    }
  }

  // -------------------------------------------------------------- counters

  lemma BumpedTotal(m: map<string, Counter>, now: nat, ttl: nat, k: string)
    requires ttl > 0
    ensures Total(LiveCounts(Bumped(m, now, ttl, k), now)) == Total(LiveCounts(m, now)) + 1
  {
    var a, b := LiveCounts(m, now), LiveCounts(Bumped(m, now, ttl, k), now);
    var v := LiveValue(m, now, k);
    assert b == a[k := v + 1];
    TotalUpdate(a, k, v + 1);
    if k in a {
      TotalRemove(a, k);
    }
  }

  lemma DroppedTotal(m: map<string, Counter>, now: nat, k: string)
    requires LiveValue(m, now, k) > 0
    ensures Total(LiveCounts(Dropped(m, now, k), now)) == Total(LiveCounts(m, now)) - 1
  {
    var a, b := LiveCounts(m, now), LiveCounts(Dropped(m, now, k), now);
    var v := LiveValue(m, now, k);
    TotalRemove(a, k);
    if v > 1 {
      assert b == a[k := v - 1];
      TotalUpdate(a, k, v - 1);
    } else {
      assert b == a - {k};
    }
  }

  lemma RenewedTotal(m: map<string, Counter>, now: nat, ttl: nat, k: string)
    requires ttl > 0
    ensures LiveCounts(Renewed(m, now, ttl, k), now) == LiveCounts(m, now)
  {
  }

  lemma TotalZero(m: map<string, nat>, k: string)
    requires Total(m) == 0 && k in m
    ensures m[k] == 0
  {
    TotalRemove(m, k);
  }

  // --------------------------------------------------------------- reserve

  /** A new lease joins the live leases of its account and model. */
  lemma LeaseAdded(s: Store, s': Store, id: string, l: Lease)
    requires s'.now == s.now < l.expires && id !in s.leases && s'.leases == s.leases[id := l]
    ensures LiveLeases(s', l.cred) == LiveLeases(s, l.cred) + {id}
    ensures LiveFor(s', l.cred, l.model) == LiveFor(s, l.cred, l.model) + {id}
    ensures forall m | m != l.model :: LiveFor(s', l.cred, m) == LiveFor(s, l.cred, m)
    ensures forall c | c != l.cred :: LiveLeases(s', c) == LiveLeases(s, c)
  {
    assert LiveLeases(s', l.cred) == LiveLeases(s, l.cred) + {id};
  }

  lemma ReserveModelsCounted(p: Params, s: Store, id: string, cred: string, model: string)
    requires p.ttl > 0 && ModelsCounted(s, cred) && id !in s.leases
    ensures ModelsCounted(Grant(s, id, cred, model, p.ttl), cred)
  {
    var s' := Grant(s, id, cred, model, p.ttl);
    LeaseAdded(s, s', id, Lease(cred, model, s.now + p.ttl));
    forall m | m != "" ensures |LiveFor(s', cred, m)| <= ModelInFlight(s', cred, m) {
      assert |LiveFor(s, cred, m)| <= ModelInFlight(s, cred, m);
    }
  }

  lemma ReserveCounted(p: Params, s: Store, id: string, cred: string, model: string)
    requires p.ttl > 0 && Counted(p, s, cred) && id !in s.leases
    requires p.limit(cred) > 0 ==> InFlight(s, cred) < p.limit(cred)
    ensures Counted(p, Grant(s, id, cred, model, p.ttl), cred)
  {
    var s' := Grant(s, id, cred, model, p.ttl);
    LeaseAdded(s, s', id, Lease(cred, model, s.now + p.ttl));
    ReserveModelsCounted(p, s, id, cred, model);
    BumpedTotal(Models(s.model, cred), s.now, p.ttl, model);
    assert InFlight(s', cred) == InFlight(s, cred) + 1;
  }

  lemma ReserveCovers(p: Params, s: Store, id: string, cred: string, model: string, i: string)
    requires p.ttl > 0 && Timely(p, s, cred) && id !in s.leases
    requires i in LiveLeases(Grant(s, id, cred, model, p.ttl), cred)
    ensures var s' := Grant(s, id, cred, model, p.ttl); LeaseCovered(s', s'.leases[i])
  {
    if i != id {
      assert i in LiveLeases(s, cred);
      assert LeaseCovered(s, s.leases[i]);
    }
  }

  lemma ReserveTimely(p: Params, s: Store, id: string, cred: string, model: string)
    requires p.ttl > 0 && Timely(p, s, cred) && id !in s.leases
    ensures Timely(p, Grant(s, id, cred, model, p.ttl), cred)
  {
    var s' := Grant(s, id, cred, model, p.ttl);
    forall i | i in LiveLeases(s', cred) ensures LeaseCovered(s', s'.leases[i]) {
      ReserveCovers(p, s, id, cred, model, i);
    }
  }

  lemma ReserveKeeps(p: Params, sys: System, id: string, cred: string, model: string)
    requires p.ttl > 0 && Inv(p, sys)
    ensures Inv(p, Apply(p, sys, TryReserve(id, cred, model)))
  {
    var s, sys' := sys.store, Apply(p, sys, TryReserve(id, cred, model));
    if id !in sys.granted && !Refused(s, cred, model, p.limit(cred)) {
      assert id !in s.leases;
      forall c ensures AccountOk(p, sys'.store, c) {
        assert AccountOk(p, s, c);
        if c == cred {
          ReserveCounted(p, s, id, cred, model);
          ReserveTimely(p, s, id, cred, model);
        } else {
          GrantElsewhereOk(p, s, id, cred, model, c);
        }
      }
    }
  }

  lemma GrantElsewhereOk(p: Params, s: Store, id: string, cred: string, model: string, c: string)
    requires p.ttl > 0 && AccountOk(p, s, c) && c != cred && id !in s.leases
    ensures AccountOk(p, Grant(s, id, cred, model, p.ttl), c)
  {
    var s' := Grant(s, id, cred, model, p.ttl);
    LeaseAdded(s, s', id, Lease(cred, model, s.now + p.ttl));
    SameAccountOk(p, s, s', c);
  }

  // --------------------------------------------------------------- release

  lemma LeaseRemoved(s: Store, s': Store, id: string)
    requires IsLive(s, id) && s'.now == s.now && s'.leases == s.leases - {id}
    ensures var l := s.leases[id];
            LiveLeases(s', l.cred) == LiveLeases(s, l.cred) - {id} && id in LiveLeases(s, l.cred) &&
            LiveFor(s', l.cred, l.model) == LiveFor(s, l.cred, l.model) - {id} && id in LiveFor(s, l.cred, l.model) &&
            (forall m | m != l.model :: LiveFor(s', l.cred, m) == LiveFor(s, l.cred, m)) &&
            forall c | c != l.cred :: LiveLeases(s', c) == LiveLeases(s, c)
  {
    var l := s.leases[id];
    assert LiveLeases(s', l.cred) == LiveLeases(s, l.cred) - {id};
  }

  lemma ReleaseCounted(p: Params, s: Store, id: string)
    requires IsLive(s, id) && AccountOk(p, s, s.leases[id].cred)
    ensures var l := s.leases[id]; Counted(p, Release(s, id, l.cred, l.model), l.cred)
  {
    var l := s.leases[id];
    var s' := Release(s, id, l.cred, l.model);
    LeaseRemoved(s, s', id);
    if l.model != "" {
      assert |LiveFor(s, l.cred, l.model)| <= ModelInFlight(s, l.cred, l.model);
      DroppedTotal(Models(s.model, l.cred), s.now, l.model);
    }
    forall m | m != "" ensures |LiveFor(s', l.cred, m)| <= ModelInFlight(s', l.cred, m) {
      assert |LiveFor(s, l.cred, m)| <= ModelInFlight(s, l.cred, m);
    }
  }

  /** The last reservation of an account takes the counter and all its model
      counters with it. */
  lemma ReleaseTimely(p: Params, s: Store, id: string)
    requires IsLive(s, id) && AccountOk(p, s, s.leases[id].cred)
    ensures var l := s.leases[id]; Timely(p, Release(s, id, l.cred, l.model), l.cred)
  {
    var cred, model := s.leases[id].cred, s.leases[id].model;
    var s' := Release(s, id, cred, model);
    LeaseRemoved(s, s', id);
    ReleaseCounted(p, s, id);
    forall i | i in LiveLeases(s', cred) ensures LeaseCovered(s', s'.leases[i]) {
      ReleaseCovers(p, s, id, i);
    }
    forall m | m in Models(s'.model, cred) ensures ModelTimely(s', cred, m) {
      ReleaseModelTimely(p, s, id, m);
    }
  }

  /** The model counter does not outlive the account's. */
  ghost predicate ModelTimely(s: Store, cred: string, m: string)
    requires m in Models(s.model, cred)
  {
    var c := Models(s.model, cred)[m];
    m != "" && c.value > 0 && (s.now < c.expires ==> cred in s.account && c.expires <= s.account[cred].expires)
  }

  lemma ReleaseModelTimely(p: Params, s: Store, id: string, m: string)
    requires IsLive(s, id) && AccountOk(p, s, s.leases[id].cred)
    requires var l := s.leases[id]; m in Models(Release(s, id, l.cred, l.model).model, l.cred)
    ensures var l := s.leases[id]; ModelTimely(Release(s, id, l.cred, l.model), l.cred, m)
  {
    var cred, model := s.leases[id].cred, s.leases[id].model;
    var s' := Release(s, id, cred, model);
    var ms := Models(s'.model, cred);
    assert m in Models(s.model, cred) && ModelTimely(s, cred, m);
    if s'.now < ms[m].expires && cred !in s'.account {
      ReleaseCounted(p, s, id);
      TotalZero(LiveCounts(ms, s'.now), m);
    }
  }

  lemma ReleaseCovers(p: Params, s: Store, id: string, i: string)
    requires IsLive(s, id) && AccountOk(p, s, s.leases[id].cred)
    requires var l := s.leases[id]; i in LiveLeases(Release(s, id, l.cred, l.model), l.cred)
    ensures var l := s.leases[id]; LeaseCovered(Release(s, id, l.cred, l.model), s.leases[i])
  {
    var cred, model := s.leases[id].cred, s.leases[id].model;
    var s', li := Release(s, id, cred, model), s.leases[i];
    LeaseRemoved(s, s', id);
    ReleaseCounted(p, s, id);
    assert LeaseCovered(s, li);
    assert |LiveLeases(s', cred)| > 0;
    if li.model != "" {
      assert i in LiveFor(s', cred, li.model);
      assert |LiveFor(s', cred, li.model)| <= ModelInFlight(s', cred, li.model);
    }
  }

  lemma ReleaseKeeps(p: Params, sys: System, id: string)
    requires Inv(p, sys)
    ensures Inv(p, Apply(p, sys, GiveBack(id)))
  {
    var s, sys' := sys.store, Apply(p, sys, GiveBack(id));
    if id in sys.granted && IsLive(s, id) {
      LeaseRemoved(s, sys'.store, id);
      forall c ensures AccountOk(p, sys'.store, c) {
        assert AccountOk(p, s, c);
        if c == s.leases[id].cred {
          ReleaseCounted(p, s, id);
          ReleaseTimely(p, s, id);
        } else {
          SameAccountOk(p, s, sys'.store, c);
        }
      }
    }
  }

  // ---------------------------------------------------------------- extend

  lemma LeaseRenewed(s: Store, s': Store, id: string, expires: nat)
    requires IsLive(s, id) && s'.now == s.now < expires
    requires s'.leases == s.leases[id := s.leases[id].(expires := expires)]
    ensures forall c :: LiveLeases(s', c) == LiveLeases(s, c)
    ensures forall c, m :: LiveFor(s', c, m) == LiveFor(s, c, m)
    ensures id in LiveLeases(s, s.leases[id].cred)
  {
    forall c ensures LiveLeases(s', c) == LiveLeases(s, c) {}
    forall c, m ensures LiveFor(s', c, m) == LiveFor(s, c, m) {}
  }

  lemma ExtendAccount(p: Params, s: Store, id: string)
    requires p.ttl > 0 && IsLive(s, id) && AccountOk(p, s, s.leases[id].cred)
    ensures var l := s.leases[id]; AccountOk(p, Extend(s, id, l.cred, l.model, p.ttl), l.cred)
  {
    var cred, model := s.leases[id].cred, s.leases[id].model;
    var s' := Extend(s, id, cred, model, p.ttl);
    LeaseRenewed(s, s', id, s.now + p.ttl);
    RenewedTotal(Models(s.model, cred), s.now, p.ttl, model);
    forall m | m != "" ensures |LiveFor(s', cred, m)| <= ModelInFlight(s', cred, m) {
      assert |LiveFor(s, cred, m)| <= ModelInFlight(s, cred, m);
    }
    forall i | i in LiveLeases(s', cred) ensures LeaseCovered(s', s'.leases[i]) {
      assert LeaseCovered(s, s.leases[i]) && LeaseCovered(s, s.leases[id]);
    }
  }

  lemma ExtendKeeps(p: Params, sys: System, id: string)
    requires p.ttl > 0 && Inv(p, sys)
    ensures Inv(p, Apply(p, sys, Renew(id)))
  {
    var s, sys' := sys.store, Apply(p, sys, Renew(id));
    if id in sys.granted && IsLive(s, id) {
      LeaseRenewed(s, sys'.store, id, s.now + p.ttl);
      forall c ensures AccountOk(p, sys'.store, c) {
        assert AccountOk(p, s, c);
        if c == s.leases[id].cred {
          ExtendAccount(p, s, id);
        } else {
          SameAccountOk(p, s, sys'.store, c);
        }
      }
    }
  }

  // ------------------------------------------------------------------ time

  lemma TimePasses(p: Params, s: Store, ms: nat, cred: string)
    requires AccountOk(p, s, cred)
    ensures AccountOk(p, s.(now := s.now + ms), cred)
  {
    var s' := s.(now := s.now + ms);
    var a, b := LiveCounts(Models(s.model, cred), s.now), LiveCounts(Models(s.model, cred), s'.now);
    assert LiveLeases(s', cred) <= LiveLeases(s, cred);
    SubsetSize(LiveLeases(s', cred), LiveLeases(s, cred));
    SubsetSize(LiveFor(s', cred, ""), LiveFor(s, cred, ""));
    TotalSub(b, a);
    if InFlight(s', cred) < InFlight(s, cred) {
      forall id | id in LiveLeases(s, cred) ensures id !in LiveLeases(s', cred) {
        assert LeaseCovered(s, s.leases[id]);
      }
      assert LiveLeases(s', cred) == {} && LiveFor(s', cred, "") == {} && b == map[];
    }
    forall m | m != "" ensures |LiveFor(s', cred, m)| <= ModelInFlight(s', cred, m) {
      TimePassesModel(p, s, ms, cred, m);
    }
  }

  lemma TimePassesModel(p: Params, s: Store, ms: nat, cred: string, m: string)
    requires AccountOk(p, s, cred) && m != ""
    ensures var s' := s.(now := s.now + ms); |LiveFor(s', cred, m)| <= ModelInFlight(s', cred, m)
  {
    var s' := s.(now := s.now + ms);
    assert |LiveFor(s, cred, m)| <= ModelInFlight(s, cred, m);
    SubsetSize(LiveFor(s', cred, m), LiveFor(s, cred, m));
    if ModelInFlight(s', cred, m) < ModelInFlight(s, cred, m) {
      forall id | id in LiveFor(s, cred, m) ensures id !in LiveFor(s', cred, m) {
        assert LeaseCovered(s, s.leases[id]);
      }
      assert LiveFor(s', cred, m) == {};
    }
  }

  lemma WaitKeeps(p: Params, sys: System, ms: nat)
    requires Inv(p, sys)
    ensures Inv(p, Apply(p, sys, Wait(ms)))
  {
    var s' := sys.store.(now := sys.store.now + ms);
    forall c ensures AccountOk(p, s', c) {
      assert AccountOk(p, sys.store, c);
      TimePasses(p, sys.store, ms, c);
    }
  }

  lemma CooldownsKeep(p: Params, sys: System, cooldowns: map<(string, string), nat>)
    requires Inv(p, sys)
    ensures Inv(p, sys.(store := sys.store.(cooldowns := cooldowns)))
  {
    var s' := sys.store.(cooldowns := cooldowns);
    forall c ensures AccountOk(p, s', c) {
      assert AccountOk(p, sys.store, c);
      SameAccountOk(p, sys.store, s', c);
    }
  }

  // -------------------------------------------------------------- theorems

  lemma ApplyKeeps(p: Params, sys: System, op: Op)
    requires p.ttl > 0 && Inv(p, sys)
    ensures Inv(p, Apply(p, sys, op))
  {
    match op {
      case TryReserve(id, cred, model) => ReserveKeeps(p, sys, id, cred, model);
      case Renew(id) => ExtendKeeps(p, sys, id);
      case GiveBack(id) => ReleaseKeeps(p, sys, id);
      case Wait(ms) => WaitKeeps(p, sys, ms);
      case _ => CooldownsKeep(p, sys, Apply(p, sys, op).store.cooldowns);
    }
  }

  lemma EmptyOk(p: Params)
    ensures Inv(p, EMPTY)
  {
    forall c ensures AccountOk(p, EMPTY.store, c) {
      assert LiveLeases(EMPTY.store, c) == {};
      assert LiveCounts(Models(EMPTY.store.model, c), 0) == map[];
      forall m ensures LiveFor(EMPTY.store, c, m) == {} {}
    }
  }

  lemma {:induction false} RunKeeps(p: Params, sys: System, ops: seq<Op>)
    requires p.ttl > 0 && Inv(p, sys)
    ensures Inv(p, Run(p, sys, ops))
  {
    if ops != [] {
      RunKeeps(p, sys, ops[..|ops| - 1]);
      ApplyKeeps(p, Run(p, sys, ops[..|ops| - 1]), ops[|ops| - 1]);
    }
  }

  /** In every run: the live leases of an account never exceed its counter, the
      counter never exceeds the limit, and it covers the model counters and the
      leases without a model. */
  lemma NeverOverAdmitted(p: Params, ops: seq<Op>, cred: string)
    requires p.ttl > 0
    ensures var s := Run(p, EMPTY, ops).store;
            |LiveLeases(s, cred)| <= InFlight(s, cred) &&
            (p.limit(cred) > 0 ==> |LiveLeases(s, cred)| <= p.limit(cred)) &&
            ModelTotal(s, cred) + |LiveFor(s, cred, "")| <= InFlight(s, cred)
  {
    EmptyOk(p);
    RunKeeps(p, EMPTY, ops);
    assert AccountOk(p, Run(p, EMPTY, ops).store, cred);
  }

  predicate IsQuiet(op: Op)
  {
    !op.TryReserve? && !op.Renew?
  }

  predicate AllQuiet(ops: seq<Op>)
  {
    forall i | 0 <= i < |ops| :: IsQuiet(ops[i])
  }

  /** Without a reservation or renewal no account deadline moves. */
  lemma {:induction false} QuietDeadlines(p: Params, sys: System, ops: seq<Op>, cred: string)
    requires AllQuiet(ops)
    ensures var a, b := sys.store.account, Run(p, sys, ops).store.account;
            cred in b ==> cred in a && b[cred].expires == a[cred].expires
  {
    if ops != [] {
      QuietDeadlines(p, sys, ops[..|ops| - 1], cred);
    }
  }

  /** After one lease duration without a reservation or renewal, whatever else
      happens and whoever has crashed, every counter is back at zero, of the
      account and of its models. */
  lemma QuietReturnsToZero(p: Params, before: seq<Op>, quiet: seq<Op>, cred: string)
    requires p.ttl > 0 && AllQuiet(quiet)
    requires var sys := Run(p, EMPTY, before);
             Run(p, sys, quiet).store.now >= sys.store.now + p.ttl
    ensures var s := Run(p, Run(p, EMPTY, before), quiet).store;
            InFlight(s, cred) == 0 && forall m :: ModelInFlight(s, cred, m) == 0
  {
    var sys := Run(p, EMPTY, before);
    EmptyOk(p);
    RunKeeps(p, EMPTY, before);
    assert AccountOk(p, sys.store, cred);
    QuietDeadlines(p, sys, quiet, cred);
    RunKeeps(p, sys, quiet);
    ModelsFollow(p, Run(p, sys, quiet).store, cred);
  }

  /** With the account's counter at zero no model counter stands. */
  lemma ModelsFollow(p: Params, s: Store, cred: string)
    requires AccountOk(p, s, cred) && InFlight(s, cred) == 0
    ensures forall m :: ModelInFlight(s, cred, m) == 0
  {
    var counts := LiveCounts(Models(s.model, cred), s.now);
    forall m ensures ModelInFlight(s, cred, m) == 0 {
      if m in counts {
        TotalRemove(counts, m);
      }
    }
  }

  /** A lease that was released or has expired never comes back, so releasing it
      again, at any later time, changes nothing. */
  lemma {:induction false} LateReleaseIsNothing(p: Params, sys: System, ops: seq<Op>, id: string)
    requires id in sys.granted && !IsLive(sys.store, id)
    ensures var sys' := Run(p, sys, ops);
            id in sys'.granted && !IsLive(sys'.store, id) && Apply(p, sys', GiveBack(id)) == sys'
  {
    if ops != [] {
      LateReleaseIsNothing(p, sys, ops[..|ops| - 1], id);
      StaysDead(p, Run(p, sys, ops[..|ops| - 1]), ops[|ops| - 1], id);
    }
  }

  lemma StaysDead(p: Params, sys: System, op: Op, id: string)
    requires id in sys.granted && !IsLive(sys.store, id)
    ensures var sys' := Apply(p, sys, op); id in sys'.granted && !IsLive(sys'.store, id)
  {
  }

  lemma ReleaseEndsLease(p: Params, sys: System, id: string)
    requires id in sys.granted
    ensures !IsLive(Apply(p, sys, GiveBack(id)).store, id)
  {
  }

  lemma RunSnoc(p: Params, ops: seq<Op>, op: Op)
    ensures Run(p, EMPTY, ops + [op]) == Apply(p, Run(p, EMPTY, ops), op)
  {
    assert (ops + [op])[..|ops|] == ops;
  }

  /** The counter is only an upper bound: a lease that expires is not taken off
      while another one keeps the counter alive. */
  lemma ExpiredLeaseStaysCounted(p: Params, cred: string)
    requires p.ttl > 1 && p.limit(cred) != 1
    ensures exists ops :: var s := Run(p, EMPTY, ops).store;
                          InFlight(s, cred) == 2 && |LiveLeases(s, cred)| == 1
  {
    var a := [TryReserve("1", cred, "")];
    var b := a + [Wait(1)];
    var c := b + [TryReserve("2", cred, "")];
    var d := c + [Wait(p.ttl - 1)];
    assert Run(p, EMPTY, []) == EMPTY;
    RunSnoc(p, [], TryReserve("1", cred, ""));
    assert [] + a == a;
    RunSnoc(p, a, Wait(1));
    RunSnoc(p, b, TryReserve("2", cred, ""));
    RunSnoc(p, c, Wait(p.ttl - 1));
    FirstLease(p, cred);
    var one := Run(p, EMPTY, b);
    SecondLease(p, cred, one);
    assert Run(p, EMPTY, d).store == Run(p, EMPTY, c).store.(now := p.ttl);
  }

  /** One lease, a moment ago. */
  predicate OneLease(p: Params, s: Store, cred: string)
  {
    s.now == 1 && s.account == map[cred := Counter(1, p.ttl)] && s.leases == map["1" := Lease(cred, "", p.ttl)] &&
    s.cooldowns == map[]
  }

  lemma FirstLease(p: Params, cred: string)
    requires p.ttl > 1
    ensures var sys := Apply(p, Apply(p, EMPTY, TryReserve("1", cred, "")), Wait(1));
            OneLease(p, sys.store, cred) && sys.granted.Keys == {"1"}
  {
  }

  /** A second lease keeps the counter alive when the first one expires. */
  lemma SecondLease(p: Params, cred: string, sys: System)
    requires p.ttl > 1 && p.limit(cred) != 1 && OneLease(p, sys.store, cred) && sys.granted.Keys == {"1"}
    ensures var s := Apply(p, sys, TryReserve("2", cred, "")).store.(now := p.ttl);
            InFlight(s, cred) == 2 && |LiveLeases(s, cred)| == 1
  {
    var s := Apply(p, sys, TryReserve("2", cred, "")).store.(now := p.ttl);
    assert s.account[cred] == Counter(2, 1 + p.ttl);
    assert LiveLeases(s, cred) == {"2"};
  }
}
