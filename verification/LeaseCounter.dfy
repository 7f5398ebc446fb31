/** What the in-flight counter of an account counts, in every run: the live leases
    and those that expired without being released since the counter was created.
 */
module LeaseCounter {
  import opened RuntimeState

  /** Granted since the counter was created and not released. */
  function Outstanding(sys: System, cred: string): set<string>
  {
    Period(sys, cred) - sys.returned
  }

  /** Of those, the ones whose lease has expired. */
  ghost function Lapsed(sys: System, cred: string): set<string>
  {
    Outstanding(sys, cred) - LiveLeases(sys.store, cred)
  }

  ghost predicate Exact(sys: System, cred: string)
  {
    (Counting(sys.store, cred) ==> sys.store.account[cred].value == |Outstanding(sys, cred)|) &&
    LiveLeases(sys.store, cred) <= Outstanding(sys, cred)
  }

  /** The history is about granted reservations, each of one account. */
  ghost predicate Recorded(sys: System)
  {
    (forall cred, id | cred in sys.period && id in sys.period[cred] ::
       id in sys.granted && sys.granted[id].cred == cred) &&
    forall id | id in sys.returned :: id in sys.granted
  }

  ghost predicate AllExact(sys: System)
  {
    Recorded(sys) && forall cred :: Exact(sys, cred)
  }

  /** Nothing of the account has changed. */
  lemma SameExact(sys: System, sys': System, cred: string)
    requires Exact(sys, cred) && LiveLeases(sys'.store, cred) == LiveLeases(sys.store, cred)
    requires Counting(sys'.store, cred) == Counting(sys.store, cred)
    requires Counting(sys.store, cred) ==> sys'.store.account[cred].value == sys.store.account[cred].value
    requires Outstanding(sys', cred) == Outstanding(sys, cred)
    ensures Exact(sys', cred)
  {
  }

  lemma NoCounterNoLease(p: Params, s: Store, cred: string)
    requires AccountOk(p, s, cred) && !Counting(s, cred)
    ensures LiveLeases(s, cred) == {}
  {
    assert |LiveLeases(s, cred)| == 0;
  }

  // --------------------------------------------------------------- reserve

  lemma ReserveRecorded(p: Params, sys: System, id: string, cred: string, model: string)
    requires Recorded(sys)
    ensures Recorded(Apply(p, sys, TryReserve(id, cred, model)))
  {
  }

  lemma OneMore(sys: System, sys': System, id: string, cred: string)
    requires Exact(sys, cred) && id !in Period(sys, cred) && id !in sys.returned
    requires LiveLeases(sys'.store, cred) == LiveLeases(sys.store, cred) + {id} && sys'.returned == sys.returned
    requires Counting(sys'.store, cred) && sys'.store.account[cred].value == InFlight(sys.store, cred) + 1
    requires cred in sys'.period && sys'.period[cred] == Period(sys, cred) + {id}
    ensures Exact(sys', cred)
  {
    GrownSet(Period(sys, cred), sys.returned, id);
    assert Period(sys', cred) == Period(sys, cred) + {id};
  }

  lemma GrownSet(a: set<string>, b: set<string>, id: string)
    requires id !in a && id !in b
    ensures (a + {id}) - b == (a - b) + {id} && |(a + {id}) - b| == |a - b| + 1
  {
    assert (a + {id}) - b == (a - b) + {id};
  }

  lemma ReserveExact(p: Params, sys: System, id: string, cred: string, model: string)
    requires p.ttl > 0 && Recorded(sys) && Exact(sys, cred) && id !in sys.store.leases
    requires id !in sys.granted && !Refused(sys.store, cred, model, p.limit(cred))
    ensures Exact(Apply(p, sys, TryReserve(id, cred, model)), cred)
  {
    var s, sys' := sys.store, Apply(p, sys, TryReserve(id, cred, model));
    LeaseAdded(s, sys'.store, id, Lease(cred, model, s.now + p.ttl));
    OneMore(sys, sys', id, cred);
  }

  lemma ReserveElsewhere(p: Params, sys: System, id: string, cred: string, model: string, c: string)
    requires p.ttl > 0 && Exact(sys, c) && c != cred && id !in sys.store.leases
    requires id !in sys.granted && !Refused(sys.store, cred, model, p.limit(cred))
    ensures Exact(Apply(p, sys, TryReserve(id, cred, model)), c)
  {
    var s, sys' := sys.store, Apply(p, sys, TryReserve(id, cred, model));
    LeaseAdded(s, sys'.store, id, Lease(cred, model, s.now + p.ttl));
    GrantElsewhere(s, id, cred, model, p.ttl, c);
    SamePeriod(sys, sys', c);
    SameExact(sys, sys', c);
  }

  lemma GrantElsewhere(s: Store, id: string, cred: string, model: string, ttl: nat, c: string)
    requires c != cred
    ensures var s' := Grant(s, id, cred, model, ttl);
            s'.now == s.now && (c in s'.account <==> c in s.account) && (c in s.account ==> s'.account[c] == s.account[c])
  {
  }

  lemma SamePeriod(sys: System, sys': System, c: string)
    requires Counting(sys'.store, c) == Counting(sys.store, c) && sys'.returned == sys.returned
    requires (c in sys'.period <==> c in sys.period) && (c in sys.period ==> sys'.period[c] == sys.period[c])
    ensures Outstanding(sys', c) == Outstanding(sys, c)
  {
  }

  // --------------------------------------------------------------- release

  lemma ReleaseExact(p: Params, sys: System, id: string)
    requires Inv(p, sys) && AllExact(sys) && IsLive(sys.store, id)
    ensures Exact(Apply(p, sys, GiveBack(id)), sys.store.leases[id].cred)
  {
    var s, sys' := sys.store, Apply(p, sys, GiveBack(id));
    var cred := s.leases[id].cred;
    assert AccountOk(p, s, cred) && Exact(sys, cred);
    LeaseRemoved(s, sys'.store, id);
    assert LeaseCovered(s, s.leases[id]);
    OneLess(sys, sys', id, cred);
  }

  lemma OneLess(sys: System, sys': System, id: string, cred: string)
    requires Exact(sys, cred) && Counting(sys.store, cred) && id in LiveLeases(sys.store, cred)
    requires LiveLeases(sys'.store, cred) == LiveLeases(sys.store, cred) - {id} && sys'.store.now == sys.store.now
    requires sys'.period == sys.period && sys'.returned == sys.returned + {id}
    requires sys'.store.account == Dropped(sys.store.account, sys.store.now, cred)
    ensures Exact(sys', cred)
  {
    var out := Outstanding(sys, cred);
    assert out - {id} == (Period(sys, cred) - sys'.returned);
    assert out == (out - {id}) + {id};
    if |out| == 1 {
      assert out - {id} == {};
    }
  }

  lemma ReleaseElsewhere(p: Params, sys: System, id: string, c: string)
    requires Inv(p, sys) && AllExact(sys) && IsLive(sys.store, id) && c != sys.store.leases[id].cred
    ensures Exact(Apply(p, sys, GiveBack(id)), c)
  {
    var s, sys' := sys.store, Apply(p, sys, GiveBack(id));
    assert Exact(sys, c) && sys.granted[id].cred == s.leases[id].cred;
    LeaseRemoved(s, sys'.store, id);
    assert id !in Period(sys, c);
    assert Outstanding(sys', c) == Outstanding(sys, c);
    SameExact(sys, sys', c);
  }

  // ---------------------------------------------------------------- the rest

  lemma ExtendExact(p: Params, sys: System, id: string, c: string)
    requires p.ttl > 0 && Inv(p, sys) && AllExact(sys) && IsLive(sys.store, id)
    ensures Exact(Apply(p, sys, Renew(id)), c)
  {
    var s, sys' := sys.store, Apply(p, sys, Renew(id));
    assert Exact(sys, c);
    LeaseRenewed(s, sys'.store, id, s.now + p.ttl);
    SameExact(sys, sys', c);
  }

  lemma WaitExact(p: Params, sys: System, ms: nat, c: string)
    requires Inv(p, sys) && AllExact(sys)
    ensures Exact(Apply(p, sys, Wait(ms)), c)
  {
    var sys' := Apply(p, sys, Wait(ms));
    assert Exact(sys, c);
    assert LiveLeases(sys'.store, c) <= LiveLeases(sys.store, c);
    WaitKeeps(p, sys, ms);
    assert AccountOk(p, sys'.store, c);
    if !Counting(sys'.store, c) {
      NoCounterNoLease(p, sys'.store, c);
    }
  }

  lemma TryReserveExact(p: Params, sys: System, id: string, cred: string, model: string, c: string)
    requires p.ttl > 0 && Inv(p, sys) && AllExact(sys)
    ensures Exact(Apply(p, sys, TryReserve(id, cred, model)), c)
  {
    assert Exact(sys, c);
    if id !in sys.granted && !Refused(sys.store, cred, model, p.limit(cred)) {
      assert id !in sys.store.leases;
      if c == cred {
        ReserveExact(p, sys, id, cred, model);
      } else {
        ReserveElsewhere(p, sys, id, cred, model, c);
      }
    }
  }

  lemma GiveBackExact(p: Params, sys: System, id: string, c: string)
    requires p.ttl > 0 && Inv(p, sys) && AllExact(sys)
    ensures Exact(Apply(p, sys, GiveBack(id)), c)
  {
    assert Exact(sys, c);
    if IsLive(sys.store, id) {
      if c == sys.store.leases[id].cred {
        ReleaseExact(p, sys, id);
      } else {
        ReleaseElsewhere(p, sys, id, c);
      }
    }
  }

  lemma ApplyExact(p: Params, sys: System, op: Op, c: string)
    requires p.ttl > 0 && Inv(p, sys) && AllExact(sys)
    ensures Exact(Apply(p, sys, op), c)
  {
    assert Exact(sys, c);
    match op {
      case TryReserve(id, cred, model) => TryReserveExact(p, sys, id, cred, model, c);
      case Renew(id) =>
        if IsLive(sys.store, id) {
          ExtendExact(p, sys, id, c);
        }
      case GiveBack(id) => GiveBackExact(p, sys, id, c);
      case Wait(ms) => WaitExact(p, sys, ms, c);
      case _ => SameExact(sys, Apply(p, sys, op), c);
    }
  }

  lemma ApplyRecorded(p: Params, sys: System, op: Op)
    requires Inv(p, sys) && Recorded(sys)
    ensures Recorded(Apply(p, sys, op))
  {
    if op.TryReserve? {
      ReserveRecorded(p, sys, op.id, op.cred, op.model);
    }
  }

  lemma {:induction false} RunExact(p: Params, ops: seq<Op>)
    requires p.ttl > 0
    ensures AllExact(Run(p, EMPTY, ops))
  {
    if ops == [] {
      forall c ensures Exact(EMPTY, c) {
        assert LiveLeases(EMPTY.store, c) == {};
      }
    } else {
      var before, op := ops[..|ops| - 1], ops[|ops| - 1];
      var sys := Run(p, EMPTY, before);
      RunExact(p, before);
      EmptyOk(p);
      RunKeeps(p, EMPTY, before);
      ApplyRecorded(p, sys, op);
      forall c ensures Exact(Apply(p, sys, op), c) {
        ApplyExact(p, sys, op, c);
      }
    }
  }

  /** In every run the counter is the number of live leases plus that of the leases
      that expired unreleased since the counter was created; so it equals the live
      leases exactly when there is none of the latter. */
  lemma CounterIsExact(p: Params, ops: seq<Op>, cred: string)
    requires p.ttl > 0
    ensures var sys := Run(p, EMPTY, ops);
            var live := LiveLeases(sys.store, cred);
            InFlight(sys.store, cred) == |live| + |Lapsed(sys, cred)| &&
            (InFlight(sys.store, cred) == |live| <==> Lapsed(sys, cred) == {})
  {
    RunExact(p, ops);
    var sys := Run(p, EMPTY, ops);
    assert Exact(sys, cred);
    var live := LiveLeases(sys.store, cred);
    assert Outstanding(sys, cred) == live + Lapsed(sys, cred);
  }
}
