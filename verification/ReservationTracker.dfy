/** With the shared store, a process remembers which reservation ids its requests
    hold. A release names only credential and model, so any reservation of that
    credential and model may be handed back; over a whole run each granted id is
    still handed back exactly once.
 */
module ReservationTracker {
  import opened Wrappers

  datatype Tracked = Tracked(id: string, model: string)

  function Get(items: map<string, seq<Tracked>>, cred: string): seq<Tracked>
  {
    if cred in items then items[cred] else []
  }

  function Without(list: seq<Tracked>, i: nat): seq<Tracked>
    requires i < |list|
  {
    list[..i] + list[i + 1..]
  }

  ghost function CountModel(list: seq<Tracked>, model: string): nat
  {
    if list == [] then 0
    else CountModel(list[..|list| - 1], model) + if list[|list| - 1].model == model then 1 else 0
  }

  lemma CountAppended(list: seq<Tracked>, t: Tracked, model: string)
    ensures CountModel(list + [t], model) == CountModel(list, model) + if t.model == model then 1 else 0
  {
    assert (list + [t])[..|list|] == list;
  }

  lemma {:induction false} CountWithout(list: seq<Tracked>, i: nat, model: string)
    requires i < |list|
    ensures CountModel(list, model) == CountModel(Without(list, i), model) + if list[i].model == model then 1 else 0
    decreases |list|
  {
    var n := |list| - 1;
    if i == n {
      assert Without(list, i) == list[..n];
    } else {
      var rest := Without(list[..n], i);
      assert Without(list, i) == rest + [list[n]];
      CountAppended(rest, list[n], model);
      CountWithout(list[..n], i, model);
    }
  }

  lemma {:induction false} CountPositive(list: seq<Tracked>, model: string)
    requires CountModel(list, model) > 0
    ensures exists i :: 0 <= i < |list| && list[i].model == model
  {
    var n := |list| - 1;
    if list[n].model != model {
      CountPositive(list[..n], model);
      var i :| 0 <= i < n && list[..n][i].model == model;
      assert list[i].model == model;
    }
  }

  /** The latest entry for a model. */
  method FindLast(list: seq<Tracked>, model: string) returns (i: int)
    ensures -1 <= i < |list|
    ensures i >= 0 ==> list[i].model == model
    ensures forall j | i < j < |list| :: list[j].model != model
  {
    i := |list| - 1;
    while i >= 0 && list[i].model != model
      invariant -1 <= i < |list|
      invariant forall j | i < j < |list| :: list[j].model != model
    {
      i := i - 1;
    }
  }

  // ------------------------------------------------------- the bookkeeping

  /** The tracker with the history of the run: where each granted id that has
      not been returned is kept, the ids passed to the store's release in order,
      and the requests in flight. */
  datatype Book = Book(
    items: map<string, seq<Tracked>>,
    kept: map<string, string>,
    returned: seq<string>,
    open: multiset<(string, string)>)

  /** The credential's list and the ids kept under it are the same. */
  ghost predicate ListOk(b: Book, cred: string)
  {
    var list := Get(b.items, cred);
    (forall i | 0 <= i < |list| :: list[i].id in b.kept && b.kept[list[i].id] == cred) &&
    (forall i, j | 0 <= i < j < |list| :: list[i].id != list[j].id) &&
    forall id | id in b.kept && b.kept[id] == cred :: Listed(list, id)
  }

  predicate Listed(list: seq<Tracked>, id: string)
  {
    exists i :: 0 <= i < |list| && list[i].id == id
  }

  ghost predicate CountsOk(b: Book, cred: string)
  {
    forall model :: CountModel(Get(b.items, cred), model) == b.open[(cred, model)]
  }

  /** Ids are returned at most once, and never while still kept. */
  ghost predicate ReturnedOnce(b: Book)
  {
    (forall i | 0 <= i < |b.returned| :: b.returned[i] !in b.kept) &&
    forall i, j | 0 <= i < j < |b.returned| :: b.returned[i] != b.returned[j]
  }

  ghost predicate BookOk(b: Book)
  {
    ReturnedOnce(b) && forall cred :: ListOk(b, cred) && CountsOk(b, cred)
  }

  predicate Unused(b: Book, id: string)
  {
    id !in b.kept && id !in b.returned
  }

  function Pushed(b: Book, cred: string, t: Tracked): Book
  {
    b.(items := b.items[cred := Get(b.items, cred) + [t]], kept := b.kept[t.id := cred],
       open := b.open + multiset{(cred, t.model)})
  }

  function RolledBack(b: Book, id: string): Book
  {
    b.(returned := b.returned + [id])
  }

  /** Taking the `i`-th reservation of a credential off the tracker and returning it. */
  function Returned(b: Book, items: map<string, seq<Tracked>>, cred: string, t: Tracked): Book
  {
    b.(items := items, kept := b.kept - {t.id}, returned := b.returned + [t.id],
       open := b.open - multiset{(cred, t.model)})
  }

  lemma PushedOk(b: Book, cred: string, t: Tracked)
    requires BookOk(b) && Unused(b, t.id)
    ensures BookOk(Pushed(b, cred, t))
  {
    var b' := Pushed(b, cred, t);
    forall c ensures ListOk(b', c) && CountsOk(b', c) {
      assert ListOk(b, c) && CountsOk(b, c);
      if c == cred {
        PushedList(b, cred, t);
        forall m ensures CountModel(Get(b'.items, c), m) == b'.open[(c, m)] {
          CountAppended(Get(b.items, cred), t, m);
        }
      } else {
        assert Get(b'.items, c) == Get(b.items, c);
      }
    }
  }

  lemma PushedList(b: Book, cred: string, t: Tracked)
    requires ListOk(b, cred) && Unused(b, t.id)
    ensures ListOk(Pushed(b, cred, t), cred)
  {
    var b' := Pushed(b, cred, t);
    var list, list' := Get(b.items, cred), Get(b'.items, cred);
    forall id | id in b'.kept && b'.kept[id] == cred ensures Listed(list', id) {
      if id == t.id {
        assert list'[|list|].id == id;
      } else {
        assert Listed(list, id);
        var i :| 0 <= i < |list| && list[i].id == id;
        assert list'[i].id == id;
      }
    }
  }

  lemma RolledBackOk(b: Book, id: string)
    requires BookOk(b) && Unused(b, id)
    ensures BookOk(RolledBack(b, id))
  {
    forall c ensures ListOk(RolledBack(b, id), c) && CountsOk(RolledBack(b, id), c) {
      assert ListOk(b, c) && CountsOk(b, c);
    }
  }

  /** `items` is the tracker with entry `i` of the credential's list gone. */
  ghost predicate IsTaken(b: Book, items: map<string, seq<Tracked>>, cred: string, i: nat)
  {
    i < |Get(b.items, cred)| && Get(items, cred) == Without(Get(b.items, cred), i) &&
    forall c | c != cred :: Get(items, c) == Get(b.items, c)
  }

  lemma ListedWithout(list: seq<Tracked>, i: nat, id: string)
    requires i < |list| && list[i].id != id && Listed(list, id)
    ensures Listed(Without(list, i), id)
  {
    var j :| 0 <= j < |list| && list[j].id == id;
    assert Without(list, i)[if j < i then j else j - 1].id == id;
  }

  lemma ReturnedList(b: Book, items: map<string, seq<Tracked>>, cred: string, i: nat)
    requires ListOk(b, cred) && IsTaken(b, items, cred, i)
    ensures ListOk(Returned(b, items, cred, Get(b.items, cred)[i]), cred)
  {
    var list := Get(b.items, cred);
    var b' := Returned(b, items, cred, list[i]);
    var list' := Get(items, cred);
    assert forall j | 0 <= j < |list'| :: list'[j] == list[if j < i then j else j + 1];
    forall id | id in b'.kept && b'.kept[id] == cred ensures Listed(list', id) {
      assert Listed(list, id);
      ListedWithout(list, i, id);
    }
  }

  lemma ReturnedOk(b: Book, items: map<string, seq<Tracked>>, cred: string, i: nat)
    requires BookOk(b) && IsTaken(b, items, cred, i)
    ensures BookOk(Returned(b, items, cred, Get(b.items, cred)[i]))
  {
    var t := Get(b.items, cred)[i];
    var b' := Returned(b, items, cred, t);
    assert ListOk(b, cred);
    forall c ensures ListOk(b', c) && CountsOk(b', c) {
      assert ListOk(b, c) && CountsOk(b, c);
      if c == cred {
        ReturnedList(b, items, cred, i);
        forall m ensures CountModel(Get(b'.items, c), m) == b'.open[(c, m)] {
          CountWithout(Get(b.items, cred), i, m);
        }
      } else {
        assert Get(b'.items, c) == Get(b.items, c);
      }
    }
  }

  // ----------------------------------------------------------- the conductor

  class Conductor {
    var items: map<string, seq<Tracked>>
    ghost var book: Book

    ghost predicate Valid()
      reads this
    {
      book.items == items && BookOk(book)
    }

    constructor ()
      ensures Valid() && book == Book(map[], map[], [], multiset{})
    {
      items := map[];
      book := Book(map[], map[], [], multiset{});
    }

    method Push(cred: string, t: Tracked)
      modifies `items
      ensures items == old(items)[cred := Get(old(items), cred) + [t]]
    {
      items := items[cred := Get(items, cred) + [t]];
    }

    method Pop(cred: string, model: string) returns (r: Option<Tracked>, ghost at: nat)
      modifies `items
      ensures r.None? ==> items == old(items) && forall t | t in Get(items, cred) :: t.model != model
      ensures r.Some? ==>
                var list := Get(old(items), cred);
                at < |list| && r.value == list[at] && r.value.model == model &&
                (forall j | at < j < |list| :: list[j].model != model) &&
                Get(items, cred) == Without(list, at) &&
                forall c | c != cred :: Get(items, c) == Get(old(items), c)
    {
      var list := Get(items, cred);
      var i := FindLast(list, model);
      if i < 0 {
        return None, 0;
      }
      var rest := Without(list, i);
      if |rest| == 0 {
        items := items - {cred};
      } else {
        items := items[cred := rest];
      }
      return Some(list[i]), i;
    }

    /** The store has granted `id`. If the credential was disabled meanwhile the
        reservation is rolled back at once; otherwise the request is under way. */
    method Acquired(cred: string, model: string, id: string, disabled: bool) returns (ok: bool)
      requires Valid() && Unused(book, id)
      modifies this
      ensures Valid() && ok == !disabled
      ensures book == if ok then Pushed(old(book), cred, Tracked(id, model)) else RolledBack(old(book), id)
    {
      if disabled {
        RolledBackOk(book, id);
        book := RolledBack(book, id);
        return false;
      }
      PushedOk(book, cred, Tracked(id, model));
      Push(cred, Tracked(id, model));
      book := Pushed(book, cred, Tracked(id, model));
      return true;
    }

    /** Ends a request: one in flight always has a reservation of its credential
        and model to return, not returned before; for any other nothing happens. */
    method Release(cred: string, model: string) returns (r: Option<Tracked>)
      requires Valid()
      modifies this
      ensures Valid() && (r.Some? <==> (cred, model) in old(book).open)
      ensures r.None? ==> book == old(book)
      ensures r.Some? ==> r.value.model == model && r.value in Get(old(items), cred) &&
                          r.value.id in old(book).kept && r.value.id !in old(book).returned &&
                          book == Returned(old(book), items, cred, r.value)
    {
      assert ListOk(book, cred) && CountsOk(book, cred);
      ghost var at;
      OpenIsTracked(book, cred, model);
      r, at := Pop(cred, model);
      if r.Some? {
        ReturnedOk(book, items, cred, at);
        book := Returned(book, items, cred, r.value);
      }
    }
  }

  lemma OpenIsTracked(b: Book, cred: string, model: string)
    requires CountsOk(b, cred)
    ensures (cred, model) in b.open <==> exists t :: t in Get(b.items, cred) && t.model == model
  {
    var list := Get(b.items, cred);
    assert CountModel(list, model) == b.open[(cred, model)];
    if (cred, model) in b.open {
      CountPositive(list, model);
    }
    if i: nat :| i < |list| && list[i].model == model {
      CountWithout(list, i, model);
    }
  }

  // -------------------------------------------------------------- whole runs

  datatype Op = Grant(cred: string, model: string, disabled: bool) | Finish(cred: string, model: string)

  /** Every id the store granted is either kept or has been returned, once. */
  ghost predicate Accounted(b: Book, granted: seq<string>)
  {
    multiset(granted) == multiset(b.kept.Keys) + multiset(b.returned)
  }

  lemma PushedAccounts(b: Book, granted: seq<string>, cred: string, t: Tracked)
    requires Accounted(b, granted) && Unused(b, t.id)
    ensures Accounted(Pushed(b, cred, t), granted + [t.id])
  {
    assert b.kept[t.id := cred].Keys == b.kept.Keys + {t.id};
  }

  lemma RolledBackAccounts(b: Book, granted: seq<string>, id: string)
    requires Accounted(b, granted)
    ensures Accounted(RolledBack(b, id), granted + [id])
  {
  }

  lemma ReturnedAccounts(b: Book, granted: seq<string>, items: map<string, seq<Tracked>>, cred: string, t: Tracked)
    requires Accounted(b, granted) && t.id in b.kept
    ensures Accounted(Returned(b, items, cred, t), granted)
  {
    assert (b.kept - {t.id}).Keys == b.kept.Keys - {t.id};
  }

  /** The grants among the first `n` steps. */
  function Grants(ops: seq<Op>, n: nat): nat
    requires n <= |ops|
  {
    if n == 0 then 0 else Grants(ops, n - 1) + if ops[n - 1].Grant? then 1 else 0
  }

  /** The store hands out its ids one after the other. */
  predicate Issued(granted: seq<string>, uuid: nat -> string)
  {
    forall i | 0 <= i < |granted| :: granted[i] == uuid(i)
  }

  ghost predicate AllFresh(uuid: nat -> string)
  {
    forall i, j | i < j :: uuid(i) != uuid(j)
  }

  lemma IssuedOneMore(granted: seq<string>, uuid: nat -> string)
    requires Issued(granted, uuid)
    ensures Issued(granted + [uuid(|granted|)], uuid)
  {
  }

  lemma StillUnused(b: Book, granted: seq<string>, uuid: nat -> string)
    requires Accounted(b, granted) && AllFresh(uuid) && Issued(granted, uuid)
    ensures Unused(b, uuid(|granted|))
  {
    var id := uuid(|granted|);
    assert id !in granted;
    assert multiset(granted)[id] == multiset(b.kept.Keys)[id] + multiset(b.returned)[id];
  }

  method RunGrant(k: Conductor, granted: seq<string>, cred: string, model: string, disabled: bool, uuid: nat -> string)
    returns (granted': seq<string>)
    requires k.Valid() && Accounted(k.book, granted) && AllFresh(uuid) && Issued(granted, uuid)
    modifies k
    ensures k.Valid() && Accounted(k.book, granted') && Issued(granted', uuid)
    ensures |granted'| == |granted| + 1
  {
    var id := uuid(|granted|);
    StillUnused(k.book, granted, uuid);
    IssuedOneMore(granted, uuid);
    PushedAccounts(k.book, granted, cred, Tracked(id, model));
    RolledBackAccounts(k.book, granted, id);
    var _ := k.Acquired(cred, model, id, disabled);
    return granted + [id];
  }

  method RunFinish(k: Conductor, ghost granted: seq<string>, cred: string, model: string)
    requires k.Valid() && Accounted(k.book, granted)
    modifies k
    ensures k.Valid() && Accounted(k.book, granted)
  {
    ghost var b := k.book;
    var r := k.Release(cred, model);
    if r.Some? {
      ReturnedAccounts(b, granted, k.items, cred, r.value);
    }
  }

  /** Any run of grants and releases, with fresh ids from the store: each granted
      id is kept or has been returned exactly once, and once no request is left
      in flight all have been returned. */
  method RunConductor(ops: seq<Op>, uuid: nat -> string) returns (k: Conductor, granted: seq<string>)
    requires AllFresh(uuid)
    ensures k.Valid() && Accounted(k.book, granted)
    ensures Issued(granted, uuid) && |granted| == Grants(ops, |ops|)
    ensures k.book.open == multiset{} ==> forall c :: Get(k.items, c) == []
    ensures k.book.open == multiset{} ==> multiset(k.book.returned) == multiset(granted)
  {
    k := new Conductor();
    granted := [];
    for n := 0 to |ops|
      invariant fresh(k) && k.Valid() && Accounted(k.book, granted) && Issued(granted, uuid)
      invariant |granted| == Grants(ops, n)
    {
      match ops[n] {
        case Grant(cred, model, disabled) =>
          granted := RunGrant(k, granted, cred, model, disabled, uuid);
        case Finish(cred, model) =>
          RunFinish(k, granted, cred, model);
      }
    }
    if k.book.open == multiset{} {
      AllReturned(k.book);
    }
  }

  lemma ListedIsKept(b: Book, cred: string)
    requires ListOk(b, cred)
    ensures Get(b.items, cred) != [] ==> b.kept != map[]
  {
    var list := Get(b.items, cred);
    if list != [] {
      assert list[0].id in b.kept;
    }
  }

  /** With no request left in flight, every granted id has been returned, and
      none twice. */
  lemma AllReturned(b: Book)
    requires BookOk(b) && b.open == multiset{}
    ensures b.kept == map[] && ReturnedOnce(b) && forall cred :: Get(b.items, cred) == []
  {
    forall id | id in b.kept ensures false {
      var cred := b.kept[id];
      assert ListOk(b, cred) && CountsOk(b, cred);
      var list := Get(b.items, cred);
      assert Listed(list, id);
      var i :| 0 <= i < |list| && list[i].id == id;
      CountWithout(list, i, list[i].model);
    }
    forall cred ensures Get(b.items, cred) == [] {
      assert ListOk(b, cred);
      ListedIsKept(b, cred);
    }
  }
}
