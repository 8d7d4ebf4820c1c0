/**
 The SQLite backends of gateway/persistence.py on a connection whose statements can fail.

 `C` is the content of the table: a map for the keyed store, a sequence for the append log. A
 write is an execute, which opens the implicit transaction, and a commit. A failing commit leaves
 the write pending on the connection.
 */
module Persistence {
  import opened Wrappers

  /** Which statements of a call raise. */
  datatype Faults = Faults(select: bool, execute: bool, commit: bool, rollback: bool)

  datatype SqliteError = OperationalError | ConnectionEvicted

  // ----- the connection ---------------------------------------------------------------

  class Connection<C> {
    var durable: C
    var pending: Option<C>

    /** What statements on this connection see. */
    function View(): C
      reads this
    {
      if pending.Some? then pending.value else durable
    }

    constructor (content: C)
      ensures durable == content && pending == None
    {
      durable, pending := content, None;
    }

    method Execute(content: C, fails: bool) returns (ok: bool)
      modifies this
      ensures ok == !fails && durable == old(durable)
      ensures pending == Some(if fails then old(View()) else content)
    {
      pending := Some(if fails then View() else content);
      ok := !fails;
    }

    method Commit(fails: bool) returns (ok: bool)
      modifies this
      ensures ok == !fails
      ensures fails ==> durable == old(durable) && pending == old(pending)
      ensures !fails ==> durable == old(View()) && pending == None
    {
      if !fails {
        durable, pending := View(), None;
      }
      ok := !fails;
    }

    method Rollback(fails: bool) returns (ok: bool)
      modifies this
      ensures ok == !fails && durable == old(durable)
      ensures pending == if fails then old(pending) else None
    {
      if !fails {
        pending := None;
      }
      ok := !fails;
    }
  }

  // ----- one call ---------------------------------------------------------------------

  datatype Store<C> = Store(durable: C, pending: Option<C>, broken: bool)

  /** What a call does to the content; `None` for a read or an aborted update. */
  type Effect<!C> = C -> Option<C>

  /** `selects` says whether the call begins with a SELECT, which opens no transaction. */
  datatype Call<!C> = Call(effect: Effect<C>, selects: bool, faults: Faults)

  datatype Outcome = Returned | Raised | Evicted

  function ViewOf<C>(s: Store<C>): C
  {
    if s.pending.Some? then s.pending.value else s.durable
  }

  function StepCall<C>(s: Store<C>, call: Call<C>): (Store<C>, Outcome)
  {
    if s.broken then (s, Evicted)
    else if call.selects && call.faults.select then (s, Raised)
    else
      match call.effect(ViewOf(s))
      case None => (s, Returned)
      case Some(content) =>
        var f := call.faults;
        if !f.execute && !f.commit then (Store(content, None, false), Returned)
        else if !f.rollback then (Store(s.durable, None, false), Raised)
        else (Store(s.durable, Some(if f.execute then ViewOf(s) else content), true), Raised)
  }

  function RunCalls<C>(s: Store<C>, calls: seq<Call<C>>): Store<C>
  {
    if calls == [] then s else StepCall(RunCalls(s, calls[..|calls| - 1]), calls[|calls| - 1]).0
  }

  /** The plain store: the effects of exactly the calls that returned normally. */
  function FoldReturned<C>(s: Store<C>, calls: seq<Call<C>>): C
  {
    if calls == [] then s.durable
    else
      var before, last := calls[..|calls| - 1], calls[|calls| - 1];
      var content := FoldReturned(s, before);
      if StepCall(RunCalls(s, before), last).1.Returned? then ApplyEffect(last.effect, content) else content
  }

  function ApplyEffect<C>(effect: Effect<C>, content: C): C
  {
    match effect(content)
    case None => content
    case Some(next) => next
  }

  ghost predicate Clean<C>(s: Store<C>)
  {
    !s.broken ==> s.pending.None?
  }

  /**
   Under every pattern of failing executes, commits and rollbacks: a live connection holds no
   pending write between calls, and what is durable is the fold of exactly the calls that returned.
   */
  lemma {:induction false} FaultRefinement<C>(s: Store<C>, calls: seq<Call<C>>)
    requires Clean(s)
    ensures Clean(RunCalls(s, calls))
    ensures RunCalls(s, calls).durable == FoldReturned(s, calls)
  {
    if calls != [] {
      FaultRefinement(s, calls[..|calls| - 1]);
    }
  }

  /** Once a rollback has failed, every later call raises `ConnectionEvicted` and nothing changes. */
  lemma {:induction false} EvictedForever<C>(s: Store<C>, calls: seq<Call<C>>, i: nat, j: nat)
    requires i <= j < |calls| && RunCalls(s, calls[..i]).broken
    ensures StepCall(RunCalls(s, calls[..j]), calls[j]) == (RunCalls(s, calls[..i]), Evicted)
  {
    if i < j {
      EvictedForever(s, calls, i, j - 1);
      assert calls[..j][..j - 1] == calls[..j - 1];
    }
  }

  // ----- the keyed store --------------------------------------------------------------

  type Table<+V> = map<string, V>

  function Lookup<V>(table: Table<V>, key: string): Option<V>
  {
    if key in table then Some(table[key]) else None
  }

  function GetEffect<V>(): Effect<Table<V>> { table => None }

  function PutEffect<V>(key: string, value: V): Effect<Table<V>> { table => Some(table[key := value]) }

  function ClaimEffect<V>(key: string, value: V): Effect<Table<V>>
  {
    table => Some(if key in table then table else table[key := value])
  }

  function DeleteEffect<V>(key: string): Effect<Table<V>> { (table: Table<V>) => Some(table - {key}) }

  /** What an `update` transform decides: a row to write or the ABORT sentinel, and what it noted for its caller. */
  datatype Txn<+V, +H> = Write(row: V, note: H) | Abort(note: H)

  function UpdateEffect<V, H>(key: string, fn: Option<V> -> Txn<V, H>): Effect<Table<V>>
  {
    table => match fn(Lookup(table, key)) case Abort(_) => None case Write(row, _) => Some(table[key := row])
  }

  /** What a call raises that does not return. */
  function Failure(broken: bool): SqliteError
  {
    if broken then ConnectionEvicted else OperationalError
  }

  class SqliteKV<V> {
    const conn: Connection<Table<V>>
    var broken: bool

    function State(): Store<Table<V>>
      reads this, conn
    {
      Store(conn.durable, conn.pending, broken)
    }

    constructor (content: Table<V>)
      ensures fresh(conn) && State() == Store(content, None, false)
    {
      conn := new Connection(content);
      broken := false;
    }

    /** `_discard_failed_write`. */
    method DiscardFailedWrite(fails: bool)
      modifies this, conn
      ensures conn.durable == old(conn.durable)
      ensures conn.pending == if fails then old(conn.pending) else None
      ensures broken == (old(broken) || fails)
    {
      var ok := conn.Rollback(fails);
      if !ok {
        broken := true;
      }
    }

    /** Execute and commit one write, discarding it on failure. */
    method ExecuteCommit(content: Table<V>, f: Faults) returns (ok: bool)
      requires !broken
      modifies this, conn
      ensures var (s, o) := StepCall(old(State()), Call(_ => Some(content), false, f)); State() == s && ok == o.Returned?
      ensures !ok ==> StepCall(old(State()), Call(_ => Some(content), false, f)).1.Raised?
    {
      ok := conn.Execute(content, f.execute);
      if ok {
        ok := conn.Commit(f.commit);
      }
      if !ok {
        DiscardFailedWrite(f.rollback);
      }
    }

    method Get(key: string, f: Faults) returns (r: Result<Option<V>, SqliteError>)
      ensures r.Ok? <==> StepCall(State(), Call(GetEffect(), true, f)).1.Returned?
      ensures r.Ok? <==> !broken && !f.select
      ensures r.Ok? ==> r.value == if key in conn.View() then Some(conn.View()[key]) else None
      ensures r.Err? ==> r.error == Failure(broken)
    {
      if broken {
        return Err(ConnectionEvicted);
      }
      if f.select {
        return Err(OperationalError);
      }
      return Ok(Lookup(conn.View(), key));
    }

    method Put(key: string, value: V, f: Faults) returns (r: Result<(), SqliteError>)
      modifies this, conn
      ensures var (s, o) := StepCall(old(State()), Call(PutEffect(key, value), false, f));
              State() == s && (r.Ok? <==> o.Returned?)
      ensures r.Ok? <==> !old(broken) && !f.execute && !f.commit
      ensures r.Err? ==> r.error == Failure(old(broken)) && conn.durable == old(conn.durable)
      ensures broken == (old(broken) || (r.Err? && f.rollback))
      ensures r.Ok? ==> conn.durable == old(conn.View())[key := value] && conn.pending.None?
    {
      if broken {
        return Err(ConnectionEvicted);
      }
      var ok := ExecuteCommit(conn.View()[key := value], f);
      return if ok then Ok(()) else Err(OperationalError);
    }

    /** Atomic put-if-absent; the result says whether this call won. */
    method Claim(key: string, value: V, f: Faults) returns (r: Result<bool, SqliteError>)
      modifies this, conn
      ensures var (s, o) := StepCall(old(State()), Call(ClaimEffect(key, value), false, f));
              State() == s && (r.Ok? <==> o.Returned?)
      ensures r.Ok? <==> !old(broken) && !f.execute && !f.commit
      ensures r.Err? ==> r.error == Failure(old(broken)) && conn.durable == old(conn.durable)
      ensures broken == (old(broken) || (r.Err? && f.rollback))
      ensures r == Ok(true) ==> key !in old(conn.View()) && conn.durable == old(conn.View())[key := value]
      ensures r == Ok(false) ==> key in old(conn.View()) && conn.durable == old(conn.View())
      ensures r.Ok? ==> conn.pending.None?
    {
      if broken {
        return Err(ConnectionEvicted);
      }
      var won := key !in conn.View();
      var ok := ExecuteCommit(if won then conn.View()[key := value] else conn.View(), f);
      return if ok then Ok(won) else Err(OperationalError);
    }

    method Delete(key: string, f: Faults) returns (r: Result<(), SqliteError>)
      modifies this, conn
      ensures var (s, o) := StepCall(old(State()), Call(DeleteEffect(key), false, f));
              State() == s && (r.Ok? <==> o.Returned?)
      ensures r.Ok? <==> !old(broken) && !f.execute && !f.commit
      ensures r.Err? ==> r.error == Failure(old(broken)) && conn.durable == old(conn.durable)
      ensures broken == (old(broken) || (r.Err? && f.rollback))
      ensures r.Ok? ==> conn.durable == old(conn.View()) - {key} && conn.pending.None?
    {
      if broken {
        return Err(ConnectionEvicted);
      }
      var ok := ExecuteCommit(conn.View() - {key}, f);
      return if ok then Ok(()) else Err(OperationalError);
    }

    /** Atomic read-modify-write of one row. */
    method Update<H>(key: string, fn: Option<V> -> Txn<V, H>, f: Faults) returns (r: Result<H, SqliteError>)
      modifies this, conn
      ensures var (s, o) := StepCall(old(State()), Call(UpdateEffect(key, fn), true, f));
              State() == s && (r.Ok? <==> o.Returned?)
      ensures var decision := fn(if key in old(conn.View()) then Some(old(conn.View())[key]) else None);
              && (r.Ok? <==> !old(broken) && !f.select && (decision.Abort? || (!f.execute && !f.commit)))
              && (r.Ok? ==> r.value == decision.note)
              && (r.Ok? && decision.Abort? ==> conn.durable == old(conn.durable) && conn.pending == old(conn.pending))
              && (r.Ok? && decision.Write? ==> conn.durable == old(conn.View())[key := decision.row] && conn.pending.None?)
      ensures r.Err? ==> r.error == Failure(old(broken)) && conn.durable == old(conn.durable)
      ensures broken == (old(broken) || (r.Err? && !f.select && f.rollback))
    {
      if broken {
        return Err(ConnectionEvicted);
      }
      if f.select {
        return Err(OperationalError);
      }
      var decision := fn(Lookup(conn.View(), key));
      if decision.Abort? {
        return Ok(decision.note);
      }
      var ok := ExecuteCommit(conn.View()[key := decision.row], f);
      return if ok then Ok(decision.note) else Err(OperationalError);
    }
  }

  // ----- runs of keyed-store calls ----------------------------------------------------

  /** `UpdateOp` carries the row an `update` writes, or `None` for ABORT. */
  datatype KvOp<!V> =
    | PutOp(key: string, value: V)
    | ClaimOp(key: string, value: V)
    | DeleteOp(key: string)
    | UpdateOp(key: string, fn: Option<V> -> Option<V>)

  datatype KvCall<!V> = KvCall(op: KvOp<V>, faults: Faults)

  function EffectOf<V>(op: KvOp<V>): Effect<Table<V>>
  {
    match op
    case PutOp(key, value) => PutEffect(key, value)
    case ClaimOp(key, value) => ClaimEffect(key, value)
    case DeleteOp(key) => DeleteEffect(key)
    case UpdateOp(key, fn) =>
      UpdateEffect(key, current => match fn(current) case None => Abort(()) case Some(row) => Write(row, ()))
  }

  function KvStep<V>(s: Store<Table<V>>, call: KvCall<V>): (Store<Table<V>>, Outcome)
  {
    StepCall(s, Call(EffectOf(call.op), call.op.UpdateOp?, call.faults))
  }

  function RunKv<V>(s: Store<Table<V>>, calls: seq<KvCall<V>>): Store<Table<V>>
  {
    if calls == [] then s else KvStep(RunKv(s, calls[..|calls| - 1]), calls[|calls| - 1]).0
  }

  /** What a returned call does to the table, key by key: only its own key, a claim only if that was free. */
  lemma KvStepTable<V>(s: Store<Table<V>>, call: KvCall<V>)
    requires Clean(s)
    ensures var (s', o) := KvStep(s, call);
            && Clean(s')
            && (!o.Returned? ==> s'.durable == s.durable)
            && (forall k | k != call.op.key :: Lookup(s'.durable, k) == Lookup(s.durable, k))
            && (o.Returned? ==>
                  Lookup(s'.durable, call.op.key) ==
                  match call.op
                  case PutOp(_, value) => Some(value)
                  case ClaimOp(key, value) => if key in s.durable then Some(s.durable[key]) else Some(value)
                  case DeleteOp(_) => None
                  case UpdateOp(key, fn) =>
                    var row := fn(Lookup(s.durable, key)); if row.Some? then row else Lookup(s.durable, key))
  {
  }

  /** Call `i` claims this key and returns. */
  ghost predicate Claims<V>(s: Store<Table<V>>, calls: seq<KvCall<V>>, key: string, i: nat)
  {
    && i < |calls| && calls[i].op.ClaimOp? && calls[i].op.key == key
    && KvStep(RunKv(s, calls[..i]), calls[i]).1.Returned?
  }

  ghost predicate ClaimsFirst<V>(s: Store<Table<V>>, calls: seq<KvCall<V>>, key: string, i: nat)
  {
    Claims(s, calls, key, i) && forall j: nat | j < i :: !Claims(s, calls, key, j)
  }

  ghost predicate OnlyClaimed<V>(calls: seq<KvCall<V>>, key: string)
  {
    forall i | 0 <= i < |calls| && calls[i].op.key == key :: calls[i].op.ClaimOp?
  }

  /** The row is the value of the first claim that returned, and there is none while no claim has returned. */
  ghost predicate StandsByFirstClaim<V>(s: Store<Table<V>>, calls: seq<KvCall<V>>, key: string, row: Option<V>)
  {
    match row
    case None => forall i: nat :: !Claims(s, calls, key, i)
    case Some(value) => exists i: nat :: ClaimsFirst(s, calls, key, i) && calls[i].op.value == value
  }

  lemma ClaimsBefore<V>(s: Store<Table<V>>, calls: seq<KvCall<V>>, before: seq<KvCall<V>>, key: string)
    requires calls != [] && before == calls[..|calls| - 1]
    ensures forall i: nat | i < |before| :: Claims(s, calls, key, i) <==> Claims(s, before, key, i)
  {
    forall i: nat | i < |before| ensures Claims(s, calls, key, i) <==> Claims(s, before, key, i) {
      assert before[..i] == calls[..i];
    }
  }

  lemma StandsStep<V>(s: Store<Table<V>>, calls: seq<KvCall<V>>, before: seq<KvCall<V>>, key: string, row: Option<V>)
    requires calls != [] && before == calls[..|calls| - 1] && StandsByFirstClaim(s, before, key, row)
    ensures var claims, call := Claims(s, calls, key, |before|), calls[|before|];
            StandsByFirstClaim(s, calls, key, if row.None? && claims then Some(call.op.value) else row)
  {
    ClaimsBefore(s, calls, before, key);
    if row.Some? {
      var i: nat :| ClaimsFirst(s, before, key, i) && before[i].op.value == row.value;
      assert ClaimsFirst(s, calls, key, i);
    } else if Claims(s, calls, key, |before|) {
      assert ClaimsFirst(s, calls, key, |before|);
    }
  }

  /** The first claim wins: under every pattern of faults, for a free key that is written only by claims. */
  lemma {:induction false} FirstClaimStands<V>(s: Store<Table<V>>, calls: seq<KvCall<V>>, key: string)
    requires Clean(s) && key !in s.durable && OnlyClaimed(calls, key)
    ensures Clean(RunKv(s, calls)) && StandsByFirstClaim(s, calls, key, Lookup(RunKv(s, calls).durable, key))
  {
    if calls != [] {
      var before, last := calls[..|calls| - 1], calls[|calls| - 1];
      FirstClaimStands(s, before, key);
      KvStepTable(RunKv(s, before), last);
      StandsStep(s, calls, before, key, Lookup(RunKv(s, before).durable, key));
    }
  }

  // ----- the append log ---------------------------------------------------------------

  function EntriesEffect<E>(): Effect<seq<E>> { entries => None }

  function AppendEffect<E>(entry: E): Effect<seq<E>> { entries => Some(entries + [entry]) }

  class SqliteAppendLog<E> {
    const conn: Connection<seq<E>>
    var broken: bool

    function State(): Store<seq<E>>
      reads this, conn
    {
      Store(conn.durable, conn.pending, broken)
    }

    constructor (content: seq<E>)
      ensures fresh(conn) && State() == Store(content, None, false)
    {
      conn := new Connection(content);
      broken := false;
    }

    method Append(entry: E, f: Faults) returns (r: Result<(), SqliteError>)
      modifies this, conn
      ensures var (s, o) := StepCall(old(State()), Call(AppendEffect(entry), false, f));
              State() == s && (r.Ok? <==> o.Returned?)
      ensures r.Ok? <==> !old(broken) && !f.execute && !f.commit
      ensures r.Err? ==> r.error == Failure(old(broken)) && conn.durable == old(conn.durable)
      ensures broken == (old(broken) || (r.Err? && f.rollback))
      ensures r.Ok? ==> conn.durable == old(conn.View()) + [entry] && conn.pending.None?
    {
      if broken {
        return Err(ConnectionEvicted);
      }
      var ok := conn.Execute(conn.View() + [entry], f.execute);
      if ok {
        ok := conn.Commit(f.commit);
      }
      if ok {
        return Ok(());
      }
      var rolledBack := conn.Rollback(f.rollback);
      if !rolledBack {
        broken := true;
      }
      return Err(OperationalError);
    }

    method Entries(f: Faults) returns (r: Result<seq<E>, SqliteError>)
      ensures r.Ok? <==> StepCall(State(), Call(EntriesEffect(), true, f)).1.Returned?
      ensures r == if !broken && !f.select then Ok(conn.View()) else Err(Failure(broken))
    {
      if broken {
        return Err(ConnectionEvicted);
      }
      if f.select {
        return Err(OperationalError);
      }
      return Ok(conn.View());
    }
  }

  /** The entries whose append returned normally, in order. */
  function Landed<E>(s: Store<seq<E>>, entries: seq<E>, faults: seq<Faults>): seq<E>
    requires |entries| == |faults|
  {
    if entries == [] then []
    else
      var n := |entries| - 1;
      var before := Landed(s, entries[..n], faults[..n]);
      if StepCall(RunCalls(s, Appends(entries[..n], faults[..n])), Call(AppendEffect(entries[n]), false, faults[n])).1.Returned?
      then before + [entries[n]] else before
  }

  function Appends<E>(entries: seq<E>, faults: seq<Faults>): (calls: seq<Call<seq<E>>>)
    requires |entries| == |faults|
    ensures |calls| == |entries|
  {
    if entries == [] then []
    else
      var n := |entries| - 1;
      Appends(entries[..n], faults[..n]) + [Call(AppendEffect(entries[n]), false, faults[n])]
  }

  /** The log holds, in order, exactly the entries whose append returned: no failed row is folded in later. */
  lemma {:induction false} AppendLogFidelity<E>(s: Store<seq<E>>, entries: seq<E>, faults: seq<Faults>)
    requires |entries| == |faults| && Clean(s)
    ensures RunCalls(s, Appends(entries, faults)).durable == s.durable + Landed(s, entries, faults)
  {
    if entries != [] {
      var n := |entries| - 1;
      AppendLogFidelity(s, entries[..n], faults[..n]);
      var calls, before := Appends(entries, faults), Appends(entries[..n], faults[..n]);
      FaultRefinement(s, before);
      assert calls[..n] == before && calls[n] == Call(AppendEffect(entries[n]), false, faults[n]);
    }
  }
}
