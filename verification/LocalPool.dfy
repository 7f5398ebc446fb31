/** The in-process scheduler: credentials come and go while requests hold
    reservations on them. A reservation belongs to a scheduler identity (the
    runtime id), which survives a reload of the credential but not its removal.
 */
module LocalPool {
  import opened Collections

  datatype Snapshot = Snapshot(runtimeID: nat, inFlight: nat, byModel: map<string, nat>)

  class Credential {
    const id: string
    const maxInFlight: int
    var runtimeID: nat
    var inFlight: nat
    var byModel: map<string, nat>
    var disabled: bool
    var recoverAt: nat                    // account cooldown, 0 when none
    var modelRecoverAt: map<string, nat>

    constructor (id: string, maxInFlight: int)
      ensures this.id == id && this.maxInFlight == maxInFlight && View() == Snapshot(0, 0, map[])
    {
      this.id, this.maxInFlight := id, maxInFlight;
      runtimeID, inFlight, byModel, disabled, recoverAt, modelRecoverAt := 0, 0, map[], false, 0, map[];
    }

    ghost function View(): Snapshot
      reads this
    {
      Snapshot(runtimeID, inFlight, byModel)
    }

    /** What decides, beside the counters, whether the credential can be used. */
    ghost function Standing(): (bool, nat, map<string, nat>)
      reads this
    {
      (disabled, recoverAt, modelRecoverAt)
    }

    predicate Ready(model: string, now: nat)
      reads this
    {
      !disabled && recoverAt <= now && (maxInFlight > 0 ==> inFlight < maxInFlight) &&
      (model != "" && model in modelRecoverAt ==> modelRecoverAt[model] <= now)
    }

    method Reserve(model: string, now: nat) returns (ok: bool)
      modifies this
      ensures ok == old(Ready(model, now))
      ensures ok <==> !old(disabled) && old(recoverAt) <= now && !(maxInFlight > 0 && old(inFlight) >= maxInFlight) &&
                      !(model != "" && model in old(modelRecoverAt) && now < old(modelRecoverAt)[model])
      ensures View() == if ok then Reserved(old(View()), model) else old(View())
      ensures Standing() == old(Standing())
    {
      if disabled {
        return false;
      }
      if now < recoverAt {
        return false;
      }
      if maxInFlight > 0 && inFlight >= maxInFlight {
        return false;
      }
      if model != "" && model in modelRecoverAt && now < modelRecoverAt[model] {
        return false;
      }
      inFlight := inFlight + 1;
      if model != "" {
        byModel := byModel[model := Count(byModel, model) + 1];
      }
      return true;
    }

    method ReleaseReservation(model: string)
      modifies this
      ensures View() == Released(old(View()), model) && Standing() == old(Standing())
    {
      if inFlight > 0 {
        inFlight := inFlight - 1;
      }
      if model != "" {
        if Count(byModel, model) > 1 {
          byModel := byModel[model := byModel[model] - 1];
        } else {
          byModel := byModel - {model};
        }
      }
    }

    /** Reload: the successor takes over the predecessor's counters. */
    method CopyRuntimeState(src: Credential)
      modifies this
      ensures View() == old(src.View()).(runtimeID := old(runtimeID)) && Standing() == old(src.Standing())
    {
      inFlight, byModel := src.inFlight, src.byModel;
      disabled, recoverAt, modelRecoverAt := src.disabled, src.recoverAt, src.modelRecoverAt;
    }
  }

  function Count(m: map<string, nat>, k: string): nat
  {
    if k in m then m[k] else 0
  }

  function Reserved(v: Snapshot, model: string): Snapshot
  {
    v.(inFlight := v.inFlight + 1,
       byModel := if model == "" then v.byModel else v.byModel[model := Count(v.byModel, model) + 1])
  }

  function Released(v: Snapshot, model: string): Snapshot
  {
    v.(inFlight := if v.inFlight > 0 then v.inFlight - 1 else 0,
       byModel := if model == "" then v.byModel
                  else if Count(v.byModel, model) > 1 then v.byModel[model := v.byModel[model] - 1]
                  else v.byModel - {model})
  }

  // ------------------------------------------------- outstanding requests

  /** A request in flight: the object it was given and that object's identity. */
  datatype Loan = Loan(cred: Credential, rid: nat, model: string)

  ghost function Loans(ledger: seq<Loan>, rid: nat): nat
  {
    if ledger == [] then 0 else (if ledger[0].rid == rid then 1 else 0) + Loans(ledger[1..], rid)
  }

  ghost function LoansFor(ledger: seq<Loan>, rid: nat, model: string): nat
  {
    if ledger == [] then 0
    else (if ledger[0].rid == rid && ledger[0].model == model then 1 else 0) + LoansFor(ledger[1..], rid, model)
  }

  /** The counters of a credential agree with the requests in flight on it. */
  ghost predicate Agrees(v: Snapshot, ledger: seq<Loan>)
  {
    v.inFlight == Loans(ledger, v.runtimeID) &&
    forall m | m != "" :: Count(v.byModel, m) == LoansFor(ledger, v.runtimeID, m)
  }

  lemma {:induction false} LoansOnePlus(ledger: seq<Loan>, l: Loan, rid: nat, model: string)
    ensures Loans([l] + ledger, rid) == (if l.rid == rid then 1 else 0) + Loans(ledger, rid)
    ensures LoansFor([l] + ledger, rid, model) ==
            (if l.rid == rid && l.model == model then 1 else 0) + LoansFor(ledger, rid, model)
  {
    assert ([l] + ledger)[1..] == ledger;
  }

  function Without(ledger: seq<Loan>, i: nat): seq<Loan>
    requires i < |ledger|
  {
    ledger[..i] + ledger[i + 1..]
  }

  lemma {:induction false} LoansWithout(ledger: seq<Loan>, i: nat, rid: nat, model: string)
    requires i < |ledger|
    ensures var l := ledger[i];
            Loans(ledger, rid) == Loans(Without(ledger, i), rid) + (if l.rid == rid then 1 else 0) &&
            LoansFor(ledger, rid, model) ==
            LoansFor(Without(ledger, i), rid, model) + (if l.rid == rid && l.model == model then 1 else 0)
    decreases |ledger|
  {
    if i == 0 {
      assert Without(ledger, 0) == ledger[1..];
    } else {
      var rest := Without(ledger[1..], i - 1);
      assert Without(ledger, i) == [ledger[0]] + rest;
      LoansOnePlus(rest, ledger[0], rid, model);
      LoansWithout(ledger[1..], i - 1, rid, model);
    }
  }

  lemma {:induction false} NoLoans(ledger: seq<Loan>, rid: nat, model: string)
    requires forall i | 0 <= i < |ledger| :: ledger[i].rid != rid
    ensures Loans(ledger, rid) == 0 && LoansFor(ledger, rid, model) == 0
  {
    if ledger != [] {
      NoLoans(ledger[1..], rid, model);
    }
  }

  /** Granting and ending a request keep the counters in agreement. */
  lemma ReservedAgrees(v: Snapshot, ledger: seq<Loan>, l: Loan)
    requires Agrees(v, ledger) && l.rid == v.runtimeID
    ensures Agrees(Reserved(v, l.model), [l] + ledger)
  {
    LoansOnePlus(ledger, l, v.runtimeID, "");
    forall m | m != "" ensures Count(Reserved(v, l.model).byModel, m) == LoansFor([l] + ledger, v.runtimeID, m) {
      LoansOnePlus(ledger, l, v.runtimeID, m);
    }
  }

  lemma ReleasedAgrees(v: Snapshot, ledger: seq<Loan>, i: nat)
    requires i < |ledger| && Agrees(v, ledger) && ledger[i].rid == v.runtimeID
    ensures Agrees(Released(v, ledger[i].model), Without(ledger, i))
  {
    LoansWithout(ledger, i, v.runtimeID, "");
    forall m | m != ""
      ensures Count(Released(v, ledger[i].model).byModel, m) == LoansFor(Without(ledger, i), v.runtimeID, m)
    {
      LoansWithout(ledger, i, v.runtimeID, m);
    }
  }

  lemma OthersAgree(v: Snapshot, ledger: seq<Loan>, i: nat)
    requires i < |ledger| && Agrees(v, ledger) && ledger[i].rid != v.runtimeID
    ensures Agrees(v, Without(ledger, i))
  {
    LoansWithout(ledger, i, v.runtimeID, "");
    forall m | m != "" ensures Count(v.byModel, m) == LoansFor(Without(ledger, i), v.runtimeID, m) {
      LoansWithout(ledger, i, v.runtimeID, m);
    }
  }

  lemma AgreesAfterRelease(v: Snapshot, v': Snapshot, ledger: seq<Loan>, i: nat)
    requires i < |ledger| && Agrees(v, ledger)
    requires v' == if ledger[i].rid == v.runtimeID then Released(v, ledger[i].model) else v
    ensures Agrees(v', Without(ledger, i))
  {
    if ledger[i].rid == v.runtimeID {
      ReleasedAgrees(v, ledger, i);
    } else {
      OthersAgree(v, ledger, i);
    }
  }

  lemma OthersAgreeAfterGrant(v: Snapshot, ledger: seq<Loan>, l: Loan)
    requires Agrees(v, ledger) && l.rid != v.runtimeID
    ensures Agrees(v, [l] + ledger)
  {
    LoansOnePlus(ledger, l, v.runtimeID, "");
    forall m | m != "" ensures Count(v.byModel, m) == LoansFor([l] + ledger, v.runtimeID, m) {
      LoansOnePlus(ledger, l, v.runtimeID, m);
    }
  }

  lemma FreshAgrees(rid: nat, ledger: seq<Loan>)
    requires forall i | 0 <= i < |ledger| :: ledger[i].rid != rid
    ensures Agrees(Snapshot(rid, 0, map[]), ledger)
  {
    NoLoans(ledger, rid, "");
    forall m | m != "" ensures LoansFor(ledger, rid, m) == 0 {
      NoLoans(ledger, rid, m);
    }
  }

  // ----------------------------------------------------------- the scheduler

  predicate DistinctIDs(cs: seq<Credential>)
  {
    forall i, j | 0 <= i < j < |cs| :: cs[i].id != cs[j].id
  }

  /** The credentials with an id, by id. */
  function ByID(cs: seq<Credential>): (m: map<string, Credential>)
    ensures forall id | id in m :: id != "" && m[id].id == id && m[id] in cs
  {
    if cs == [] then map[]
    else
      var c, m := cs[|cs| - 1], ByID(cs[..|cs| - 1]);
      if c.id == "" then m else m[c.id := c]
  }

  datatype AddResult = Added | InvalidCredential | DuplicateID

  class Scheduler {
    var creds: map<string, Credential>
    var nextRuntimeID: nat
    ghost var ledger: seq<Loan>           // requests in flight
    ghost var known: set<Credential>      // everything ever registered

    constructor ()
      ensures Valid() && creds == map[] && ledger == [] && known == {}
    {
      creds, nextRuntimeID, ledger, known := map[], 0, [], {};
    }

    /** Registered objects carry their own id, and an identity is never shared
        by credentials with different ids. */
    ghost predicate Identities()
      reads this, known
    {
      IdentitiesOf(creds, known)
    }

    ghost predicate IdentitiesOf(cs: map<string, Credential>, ks: set<Credential>)
      reads this, ks
    {
      (forall id | id in cs :: cs[id] in ks && cs[id].id == id) &&
      (forall c | c in ks :: 0 < c.runtimeID <= nextRuntimeID) &&
      (forall c, d | c in ks && d in ks && c.runtimeID == d.runtimeID :: c.id == d.id)
    }

    ghost predicate LedgerOk()
      reads this, known
    {
      forall i | 0 <= i < |ledger| :: ledger[i].cred in known && ledger[i].cred.runtimeID == ledger[i].rid
    }

    /** The in-flight count of a registered credential is the number of
        requests in flight on its identity, and within its limit. */
    ghost predicate Conserved(c: Credential)
      reads this, c
    {
      Agrees(c.View(), ledger) && (c.maxInFlight > 0 ==> c.inFlight <= c.maxInFlight)
    }

    ghost predicate Valid()
      reads this, known
    {
      Identities() && LedgerOk() && forall id | id in creds :: Conserved(creds[id])
    }

    /** Tries the credentials the selector picks, round after round, until one
        can be reserved. */
    method Acquire(picks: seq<string>, model: string, now: nat) returns (r: Credential?)
      requires Valid()
      modifies known, `ledger
      ensures Valid()
      ensures r == null ==> ledger == old(ledger) && forall c | c in known :: c.View() == old(c.View())
      ensures r != null ==> r in creds.Values && r.id in picks && r in known &&
                            ledger == [Loan(r, r.runtimeID, model)] + old(ledger) &&
                            r.View() == Reserved(old(r.View()), model) &&
                            forall c | c in known && c != r :: c.View() == old(c.View())
      ensures r == null <==> forall i | 0 <= i < |picks| :: !old(CanTake(picks[i], model, now))
      ensures r != null ==> exists k :: 0 <= k < |picks| && picks[k] == r.id && old(CanTake(picks[k], model, now)) &&
                                        forall i | 0 <= i < k :: !old(CanTake(picks[i], model, now))
    {
      for i := 0 to |picks|
        invariant Valid() && ledger == old(ledger)
        invariant forall c | c in known :: c.View() == old(c.View()) && c.Standing() == old(c.Standing())
        invariant forall j | 0 <= j < i :: !old(CanTake(picks[j], model, now))
      {
        if picks[i] in creds {
          var c := creds[picks[i]];
          var ok := TryReserve(c, model, now);
          if ok {
            assert c == creds[picks[i]] && picks[i] == c.id;
            return c;
          }
        }
      }
      return null;
    }

    /** The credential is registered and can be reserved for the model. */
    predicate CanTake(id: string, model: string, now: nat)
      reads this, creds.Values
    {
      id in creds && creds[id].Ready(model, now)
    }

    method TryReserve(c: Credential, model: string, now: nat) returns (ok: bool)
      requires Valid() && c.id in creds && creds[c.id] == c
      modifies c, `ledger
      ensures Valid()
      ensures ok == old(c.Ready(model, now))
      ensures c.View() == (if ok then Reserved(old(c.View()), model) else old(c.View())) && c.Standing() == old(c.Standing())
      ensures ledger == if ok then [Loan(c, c.runtimeID, model)] + old(ledger) else old(ledger)
    {
      ok := c.Reserve(model, now);
      if ok {
        var l := Loan(c, c.runtimeID, model);
        ghost var before := ledger;
        ledger := [l] + ledger;
        ReservedAgrees(old(c.View()), before, l);
        forall id | id in creds ensures Conserved(creds[id]) {
          var d := creds[id];
          if d != c {
            assert old(Conserved(d));
            assert d.runtimeID != c.runtimeID;
            OthersAgreeAfterGrant(d.View(), before, l);
          }
        }
      }
    }

    /** Ends request `i`. The current holder of the identity is released if there
        is one, and the stale object otherwise; no other account is touched. */
    method Release(c: Credential, model: string, ghost i: nat)
      requires Valid() && i < |ledger| && ledger[i].cred == c && ledger[i].model == model
      modifies known, `ledger
      ensures Valid() && ledger == Without(old(ledger), i)
      ensures forall d | d in known && d.runtimeID != c.runtimeID :: d.View() == old(d.View())
    {
      var holder := Holder(c);
      HolderIsOnly(c, i);
      holder.ReleaseReservation(model);
      ledger := Without(ledger, i);
      forall id | id in creds ensures Conserved(creds[id]) {
        var d := creds[id];
        assert old(Conserved(d));
        AgreesAfterRelease(old(d.View()), d.View(), old(ledger), i);
      }
    }

    /** Who answers for the reservations of an identity. */
    function Holder(c: Credential): Credential
      reads this, c, creds.Values
    {
      if c.id in creds && creds[c.id].runtimeID == c.runtimeID then creds[c.id] else c
    }

    lemma HolderIsOnly(c: Credential, i: nat)
      requires Valid() && i < |ledger| && ledger[i].cred == c
      ensures Holder(c) in known && Holder(c).runtimeID == c.runtimeID && ledger[i].rid == c.runtimeID
      ensures forall id | id in creds && creds[id].runtimeID == c.runtimeID :: creds[id] == Holder(c)
    {
    }

    /** One credential of a reload: a known id keeps its identity and counters, a
        new id starts a new identity. */
    method Adopt(c: Credential)
      modifies c, `nextRuntimeID
      ensures c.id in creds ==> c.View() == old(creds[c.id].View()) && nextRuntimeID == old(nextRuntimeID)
      ensures c.id !in creds ==> c.View() == old(c.View()).(runtimeID := nextRuntimeID) &&
                                 nextRuntimeID == old(nextRuntimeID) + 1
      ensures c.Standing() == if c.id in creds then old(creds[c.id].Standing()) else old(c.Standing())
    {
      if c.id in creds {
        var was := creds[c.id];
        c.runtimeID := was.runtimeID;
        if was != c {
          c.CopyRuntimeState(was);
        }
      } else {
        c.runtimeID := nextRuntimeID + 1;
        nextRuntimeID := nextRuntimeID + 1;
      }
    }

    /** What a reload may be given: the registered object itself, or a fresh
        credential with the same limit. */
    predicate Loadable(c: Credential, known: set<Credential>)
      reads this, c, creds.Values
    {
      (c in known ==> c.id in creds && creds[c.id] == c) &&
      (c !in known ==> c.inFlight == 0 && c.byModel == map[]) &&
      (c.id in creds ==> c.maxInFlight == creds[c.id].maxInFlight)
    }

    /** A credential that got its identity during a reload. */
    ghost predicate IsNew(c: Credential, first: nat)
      reads this, c
    {
      first < c.runtimeID <= nextRuntimeID && c.inFlight == 0 && c.byModel == map[]
    }

    /** Distinct registered ids, each with its identity and counters settled. */
    ghost predicate Settled(next: map<string, Credential>, first: nat)
      reads this, next.Values, creds.Values
    {
      (forall id | id in next :: next[id].id == id) &&
      (forall id | id in next && id in creds ::
        next[id].View() == creds[id].View() && next[id].maxInFlight == creds[id].maxInFlight) &&
      (forall id | id in next && id !in creds :: IsNew(next[id], first)) &&
      forall a, b | a in next && b in next && a != b && a !in creds && b !in creds ::
        next[a].runtimeID != next[b].runtimeID
    }

    method AdoptInto(next: map<string, Credential>, c: Credential, ghost first: nat) returns (next': map<string, Credential>)
      requires Settled(next, first) && first <= nextRuntimeID
      requires c !in next.Values && c.id !in next
      requires c.id in creds ==> c.maxInFlight == creds[c.id].maxInFlight
      requires c in creds.Values ==> c.id in creds && creds[c.id] == c
      requires c.id !in creds ==> c.inFlight == 0 && c.byModel == map[]
      modifies c, `nextRuntimeID
      ensures next' == next[c.id := c] && nextRuntimeID >= old(nextRuntimeID)
      ensures Settled(next', first)
      ensures c in creds.Values ==> c.View() == old(c.View())
    {
      assert forall id | id in next :: next[id] in next.Values;
      assert forall id | id in creds :: creds[id] in creds.Values;
      Adopt(c);
      assert forall id | id in next :: next[id].View() == old(next[id].View());
      assert forall id | id in creds :: creds[id].View() == old(creds[id].View());
      SettledWith(next, c, first);
      next' := next[c.id := c];
    }

    lemma SettledWith(next: map<string, Credential>, c: Credential, first: nat)
      requires Settled(next, first) && c.id !in next
      requires c.id in creds ==> c.View() == creds[c.id].View() && c.maxInFlight == creds[c.id].maxInFlight
      requires c.id !in creds ==>
                 IsNew(c, first) && forall id | id in next && id !in creds :: next[id].runtimeID != c.runtimeID
      ensures Settled(next[c.id := c], first)
    {
    }

    method AdoptAll(cs: seq<Credential>) returns (next: map<string, Credential>)
      requires Valid()
      requires forall i | 0 <= i < |cs| :: Loadable(cs[i], known)
      requires DistinctIDs(cs)
      modifies cs, `nextRuntimeID
      ensures nextRuntimeID >= old(nextRuntimeID) && Settled(next, old(nextRuntimeID))
      ensures forall c | c in known :: c.View() == old(c.View())
      ensures next == ByID(cs)
    {
      next := map[];
      ghost var first := nextRuntimeID;
      for i := 0 to |cs|
        invariant first <= nextRuntimeID && Settled(next, first)
        invariant forall c | c in known :: c.View() == old(c.View())
        invariant forall j | i <= j < |cs| :: cs[j].View() == old(cs[j].View())
        invariant next == ByID(cs[..i])
      {
        var c := cs[i];
        assert cs[..i + 1][..i] == cs[..i];
        assert Loadable(c, known);
        if c.id == "" {
          continue;
        }
        assert c.id !in next by {
          assert forall d | d in cs[..i] :: d.id != c.id;
        }
        assert forall j | i < j < |cs| :: cs[j].id != c.id;
        next := AdoptInto(next, c, first);
      }
      assert cs[..|cs|] == cs;
    }

    method Install(next: map<string, Credential>, ghost first: nat)
      requires Identities() && LedgerOk() && Settled(next, first)
      requires forall id | id in creds :: Conserved(creds[id])
      requires forall c | c in known :: c.runtimeID <= first
      requires forall id | id in next && next[id] in known :: id in creds
      modifies `creds, `known
      ensures Valid() && creds == next && known == old(known) + next.Values
    {
      NextConserved(next, first);
      NextIdentities(next, first);
      creds := next;
      known := known + next.Values;
      assert forall id | id in creds :: Conserved(creds[id]);
    }

    /** A kept id counts what its predecessor counted, a new one nothing. */
    lemma NextConserved(next: map<string, Credential>, first: nat)
      requires Identities() && LedgerOk() && Settled(next, first)
      requires forall id | id in creds :: Conserved(creds[id])
      requires forall c | c in known :: c.runtimeID <= first
      ensures forall id | id in next :: Conserved(next[id])
    {
      forall id | id in next ensures Conserved(next[id]) {
        if id in creds {
          assert Conserved(creds[id]);
        } else {
          NewConserved(next[id], first);
        }
      }
    }

    lemma NewConserved(c: Credential, first: nat)
      requires LedgerOk() && IsNew(c, first) && forall d | d in known :: d.runtimeID <= first
      ensures Conserved(c)
    {
      FreshAgrees(c.runtimeID, ledger);
    }

    /** Identities stay unique. */
    lemma NextIdentities(next: map<string, Credential>, first: nat)
      requires Identities() && Settled(next, first)
      requires forall c | c in known :: c.runtimeID <= first
      ensures IdentitiesOf(next, known + next.Values)
    {
      forall c | c in next.Values ensures Placed(c, first) {
        var id :| id in next && next[id] == c;
      }
      forall c, d | c in known + next.Values && d in known + next.Values && c.runtimeID == d.runtimeID
        ensures c.id == d.id
      {
        if c !in known || d !in known {
          SameIdentity(next, first, c, d);
        }
      }
    }

    /** A credential of a reload has the identity of the registered one with its
        id, or a new one. */
    ghost predicate Placed(c: Credential, first: nat)
      reads this, c, creds.Values
    {
      if c.id in creds then c.runtimeID == creds[c.id].runtimeID else IsNew(c, first)
    }

    lemma SameIdentity(next: map<string, Credential>, first: nat, c: Credential, d: Credential)
      requires Identities() && Settled(next, first) && forall e | e in known :: e.runtimeID <= first
      requires forall e | e in next.Values :: Placed(e, first)
      requires c in known + next.Values && d in known + next.Values && c.runtimeID == d.runtimeID
      ensures c.id == d.id
    {
      Identified(next, first, c);
      Identified(next, first, d);
      if c.runtimeID > first {
        assert c in next.Values && d in next.Values;
        assert next[c.id] == c && next[d.id] == d;
      }
    }

    /** An old identity belongs to a known credential of the same id. */
    lemma Identified(next: map<string, Credential>, first: nat, c: Credential)
      requires Identities() && Settled(next, first) && forall e | e in known :: e.runtimeID <= first
      requires forall e | e in next.Values :: Placed(e, first)
      requires c in known + next.Values
      ensures c.runtimeID <= first ==> exists e :: e in known && e.id == c.id && e.runtimeID == c.runtimeID
      ensures c.runtimeID > first ==> c.id in next && next[c.id] == c && c.id !in creds
    {
      if c !in known {
        assert Placed(c, first);
        if c.id in creds {
          assert creds[c.id] in known && creds[c.id].id == c.id;
        }
      }
    }

    /** A reload replaces the pool. Accounts that stay keep their identity and
        counters, so requests in flight still count; new ones start at zero. */
    method Register(cs: seq<Credential>)
      requires Valid()
      requires forall i | 0 <= i < |cs| :: Loadable(cs[i], known)
      requires DistinctIDs(cs)
      modifies cs, `creds, `nextRuntimeID, `known
      ensures Valid() && ledger == old(ledger)
      ensures creds == ByID(cs) && known == old(known) + creds.Values
      ensures forall id | id in creds && id in old(creds) :: creds[id].View() == old(creds[id].View())
      ensures forall id | id in creds && id !in old(creds) :: IsNew(creds[id], old(nextRuntimeID))
    {
      ghost var first := nextRuntimeID;
      var next := AdoptAll(cs);
      Install(next, first);
    }

    method Add(c: Credential?) returns (r: AddResult)
      requires Valid()
      requires c != null ==> c !in known && c.inFlight == 0 && c.byModel == map[]
      modifies c, `creds, `nextRuntimeID, `known
      ensures Valid() && ledger == old(ledger)
      ensures r.InvalidCredential? <==> c == null || c.id == ""
      ensures r.DuplicateID? <==> c != null && c.id != "" && c.id in old(creds)
      ensures r.Added? ==> creds == old(creds)[c.id := c] && known == old(known) + {c} && c.runtimeID == old(nextRuntimeID) + 1
      ensures !r.Added? ==> creds == old(creds) && known == old(known)
    {
      if c == null || c.id == "" {
        return InvalidCredential;
      }
      if c.id in creds {
        return DuplicateID;
      }
      c.runtimeID := nextRuntimeID + 1;
      nextRuntimeID := nextRuntimeID + 1;
      creds := creds[c.id := c];
      known := known + {c};
      FreshAgrees(c.runtimeID, ledger);
      forall id | id in creds ensures Conserved(creds[id]) {
        if id != c.id {
          assert old(Conserved(creds[id]));
        }
      }
      return Added;
    }

    method Remove(id: string) returns (found: bool)
      requires Valid()
      modifies `creds
      ensures Valid() && found == (id in old(creds)) && creds == old(creds) - {id}
    {
      found := id in creds;
      creds := creds - {id};
    }
  }

  // -------------------------------------------------------------- all runs

  datatype Op =
    | DoAcquire(picks: seq<string>, model: string, now: nat)
    | DoRelease(i: nat)
    | DoReload(ids: seq<string>)
    | DoAdd(id: string)
    | DoRemove(id: string)

  ghost predicate Limited(s: Scheduler, limit: string -> int)
    reads s, s.creds.Values
  {
    forall id | id in s.creds :: s.creds[id].maxInFlight == limit(id)
  }

  method NewCredentials(ids: seq<string>, limit: string -> int) returns (cs: seq<Credential>)
    requires Distinct(ids)
    ensures |cs| == |ids| && DistinctIDs(cs)
    ensures forall i | 0 <= i < |cs| ::
              fresh(cs[i]) && cs[i].id == ids[i] && cs[i].maxInFlight == limit(ids[i]) &&
              cs[i].View() == Snapshot(0, 0, map[])
  {
    cs := [];
    for i := 0 to |ids|
      invariant |cs| == i
      invariant forall j | 0 <= j < i ::
                  fresh(cs[j]) && cs[j].id == ids[j] && cs[j].maxInFlight == limit(ids[j]) &&
                  cs[j].View() == Snapshot(0, 0, map[])
    {
      var c := new Credential(ids[i], limit(ids[i]));
      cs := cs + [c];
    }
  }

  method Reload(s: Scheduler, ids: seq<string>, limit: string -> int)
    requires s.Valid() && Limited(s, limit) && Distinct(ids)
    modifies s
    ensures s.Valid() && Limited(s, limit) && s.ledger == old(s.ledger)
    ensures fresh(s.known - old(s.known))
  {
    var cs := NewCredentials(ids, limit);
    s.Register(cs);
  }

  method AddNew(s: Scheduler, id: string, limit: string -> int)
    requires s.Valid() && Limited(s, limit)
    modifies s
    ensures s.Valid() && Limited(s, limit) && s.ledger == old(s.ledger)
    ensures fresh(s.known - old(s.known))
  {
    var c := new Credential(id, limit(id));
    var _ := s.Add(c);
  }

  /** Any interleaving of requests, releases, reloads, additions and removals:
      every registered credential counts exactly the requests in flight on its
      identity and stays within its limit. */
  method RunPool(ops: seq<Op>, limit: string -> int) returns (s: Scheduler)
    ensures s.Valid()
    ensures forall id | id in s.creds ::
              var c := s.creds[id];
              c.inFlight == Loans(s.ledger, c.runtimeID) && (limit(id) > 0 ==> c.inFlight <= limit(id))
  {
    s := new Scheduler();
    var held: seq<Loan> := [];
    for i := 0 to |ops|
      invariant fresh(s) && fresh(s.known) && s.Valid() && Limited(s, limit) && s.ledger == held
    {
      match ops[i] {
        case DoAcquire(picks, model, now) =>
          var c := s.Acquire(picks, model, now);
          if c != null {
            held := [Loan(c, c.runtimeID, model)] + held;
          }
        case DoRelease(k) =>
          if k < |held| {
            s.Release(held[k].cred, held[k].model, k);
            held := Without(held, k);
          }
        case DoReload(ids) =>
          if Distinct(ids) {
            Reload(s, ids, limit);
          }
        case DoAdd(id) => AddNew(s, id, limit);
        case DoRemove(id) => var _ := s.Remove(id);
      }
    }
    assert forall id | id in s.creds :: s.Conserved(s.creds[id]);
  }
}
