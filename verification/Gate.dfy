/** The gate buffers a response until it is promoted, so that an attempt without
    visible output can be discarded and retried unnoticed by the client.
 */
module Gate {

  /** What reached the client, what is buffered, and the mode. */
  datatype State<T> = State(client: seq<T>, buf: seq<T>, promoted: bool)

  function Written<T>(g: State<T>, x: T): State<T>
  {
    if g.promoted then g.(client := g.client + [x]) else g.(buf := g.buf + [x])
  }

  function Promoted<T>(g: State<T>): State<T>
  {
    if g.promoted then g else State(g.client + g.buf, [], true)
  }

  function Discarded<T>(g: State<T>): State<T>
  {
    g.(buf := [])
  }

  class GateWriter<T> {
    var client: seq<T>
    var buf: seq<T>
    var promoted: bool

    ghost function View(): State<T>
      reads this
    {
      State(client, buf, promoted)
    }

    constructor (client: seq<T>)
      ensures View() == State(client, [], false)
    {
      this.client, buf, promoted := client, [], false;
    }

    method Write(x: T)
      modifies this
      ensures View() == Written(old(View()), x)
    {
      if promoted {
        client := client + [x];
      } else {
        buf := buf + [x];
      }
    }

    method Promote()
      modifies this
      ensures View() == Promoted(old(View()))
    {
      if promoted {
        return;
      }
      promoted := true;
      if |buf| > 0 {
        client := client + buf;
        buf := [];
      } else {
        assert client + buf == client;
      }
    }

    method Discard()
      modifies this
      ensures View() == Discarded(old(View()))
    {
      buf := [];
    }
  }

  // ------------------------------------------------------------- whole runs

  datatype Op<T> = Write(x: T) | Promote | Discard

  function Do<T>(g: State<T>, op: Op<T>): State<T>
  {
    match op
    case Write(x) => Written(g, x)
    case Promote => Promoted(g)
    case Discard => Discarded(g)
  }

  function Run<T>(g: State<T>, ops: seq<Op<T>>): State<T>
  {
    if ops == [] then g else Do(Run(g, ops[..|ops| - 1]), ops[|ops| - 1])
  }

  /** What has been written and not been thrown away by a discard that was still
      in time. */
  function Kept<T(==)>(ops: seq<Op<T>>): seq<T>
  {
    if ops == [] then []
    else
      var before := ops[..|ops| - 1];
      match ops[|ops| - 1]
      case Write(x) => Kept(before) + [x]
      case Promote => Kept(before)
      case Discard => if Promote in before then Kept(before) else []
  }

  /** Once promoted the client has exactly what was kept, and before that nothing. */
  lemma {:induction false} GateDelivers<T>(sent: seq<T>, ops: seq<Op<T>>)
    ensures var g := Run(State(sent, [], false), ops);
            g.promoted == (Promote in ops) &&
            if g.promoted then g.client == sent + Kept(ops) && g.buf == []
            else g.client == sent && g.buf == Kept(ops)
  {
    if ops != [] {
      var before, op := ops[..|ops| - 1], ops[|ops| - 1];
      assert ops == before + [op];
      GateDelivers(sent, before);
    }
  }
}
