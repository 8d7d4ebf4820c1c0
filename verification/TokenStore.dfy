/** The sealed token store of gateway/sealed_token_store.py: one row, rewritten through `SqliteKV.update`. */
module TokenStore {
  import opened Wrappers
  import opened Jcs
  import opened Persistence

  /** Sealed credentials under an ideal AEAD: each seal is a distinct value that opens to what was sealed. */
  datatype Sealed = Sealed(credentials: Json, nonce: nat)

  datatype CommitRecord = CommitRecord(
    operationId: string,
    connectionId: string,
    resultId: string,
    version: int,
    generation: int,
    ackPending: bool,
    invalidated: bool)

  datatype TokenRow = TokenRow(
    sealed: Option<Sealed>,
    commit: Option<CommitRecord>,
    invalidatedOps: seq<string>,
    barrier: int,
    lastGeneration: int)

  const EMPTY_ROW := TokenRow(None, None, [], 0, 0)

  /** `dict(current or {})`, with every missing field at its default. */
  function OrEmpty(current: Option<TokenRow>): (row: TokenRow)
    ensures current.None? ==> row == TokenRow(None, None, [], 0, 0)
    ensures current.Some? ==> row == current.value
  {
    if current.Some? then current.value else EMPTY_ROW
  }

  // ----- the transactions -------------------------------------------------------------

  function ReserveTxn(current: Option<TokenRow>): Txn<TokenRow, int>
  {
    var row := OrEmpty(current);
    var g := Max(row.lastGeneration, row.barrier) + 1;
    Write(row.(lastGeneration := g), g)
  }

  function VoidTxn(generation: int, current: Option<TokenRow>): Txn<TokenRow, ()>
  {
    var row := OrEmpty(current);
    Write(row.(barrier := Max(row.barrier, generation)), ())
  }

  datatype CommitArgs = CommitArgs(
    operationId: string,
    connectionId: string,
    resultId: string,
    version: int,
    generation: int,
    ackPending: bool)

  function FreshCommit(a: CommitArgs): CommitRecord
  {
    CommitRecord(a.operationId, a.connectionId, a.resultId, a.version, a.generation, a.ackPending, false)
  }

  /** The record names what the call was given. */
  predicate RecordsArgs(c: CommitRecord, a: CommitArgs)
  {
    && c.operationId == a.operationId && c.connectionId == a.connectionId && c.resultId == a.resultId
    && c.version == a.version && c.generation == a.generation
  }

  /** The note is the new commit, or `None` for `CommitInvalidated`. */
  function SaveTxn(a: CommitArgs, sealed: Sealed, current: Option<TokenRow>): Txn<TokenRow, Option<CommitRecord>>
  {
    var row := OrEmpty(current);
    if a.operationId in row.invalidatedOps then Abort(None)
    else if a.generation <= row.barrier then Abort(None)
    else Write(row.(sealed := Some(sealed), commit := Some(FreshCommit(a))), Some(FreshCommit(a)))
  }

  function AckTxn(operationId: string, resultId: string, version: int, current: Option<TokenRow>): Txn<TokenRow, bool>
  {
    if current.None? || current.value.commit.None? then Abort(false)
    else
      var commit := current.value.commit.value;
      if commit.operationId != operationId || commit.resultId != resultId || commit.version != version then Abort(false)
      else if !commit.ackPending then Abort(true)
      else Write(current.value.(commit := Some(commit.(ackPending := false))), true)
  }

  function InvalidateTxn(operationId: string, current: Option<TokenRow>): Txn<TokenRow, bool>
  {
    var row := OrEmpty(current);
    var ops := if operationId in row.invalidatedOps then row.invalidatedOps else row.invalidatedOps + [operationId];
    var hit := row.commit.Some? && row.commit.value.operationId == operationId;
    var commit := if hit then Some(row.commit.value.(invalidated := true)) else row.commit;
    Write(row.(invalidatedOps := ops, commit := commit), hit)
  }

  function ClearTxn(current: Option<TokenRow>): Txn<TokenRow, bool>
  {
    if current.None? || current.value.sealed.None? then Abort(false)
    else Write(current.value.(sealed := None), true)
  }

  // ----- the store's calls ------------------------------------------------------------

  datatype TokenOp =
    | Reserve
    | Void(generation: int)
    | Save(args: CommitArgs, sealed: Sealed)
    | Ack(operationId: string, resultId: string, version: int)
    | Invalidate(operationId: string)
    | Clear

  function After<H>(current: Option<TokenRow>, txn: Txn<TokenRow, H>): Option<TokenRow>
  {
    match txn
    case Write(row, _) => Some(row)
    case Abort(_) => current
  }

  function Apply(current: Option<TokenRow>, op: TokenOp): Option<TokenRow>
  {
    match op
    case Reserve => After(current, ReserveTxn(current))
    case Void(g) => After(current, VoidTxn(g, current))
    case Save(args, sealed) => After(current, SaveTxn(args, sealed, current))
    case Ack(operation, result, version) => After(current, AckTxn(operation, result, version, current))
    case Invalidate(operation) => After(current, InvalidateTxn(operation, current))
    case Clear => After(current, ClearTxn(current))
  }

  const STATE_KEY := "gmail_oauth_state"

  class SealedTokenStore {
    const kv: SqliteKV<TokenRow>

    ghost predicate Valid()
      reads kv, kv.conn
    {
      Clean(kv.State())
    }

    function Row(): Option<TokenRow>
      reads kv.conn
    {
      Lookup(kv.conn.durable, STATE_KEY)
    }

    /** The rows of other subsystems in the same database. */
    function Others(): Table<TokenRow>
      reads kv.conn
    {
      kv.conn.durable - {STATE_KEY}
    }

    constructor (content: Table<TokenRow>)
      ensures Valid() && Row() == Lookup(content, STATE_KEY) && fresh(kv) && fresh(kv.conn)
    {
      kv := new SqliteKV(content);
    }

    method ReserveGeneration(f: Faults) returns (r: Result<int, SqliteError>)
      requires Valid()
      modifies kv, kv.conn
      ensures Valid() && Others() == old(Others())
      ensures Row() == if r.Ok? then Apply(old(Row()), Reserve) else old(Row())
      ensures var before := OrEmpty(old(Row()));
              r.Ok? ==> r.value > before.lastGeneration && r.value > before.barrier &&
                        (r.value == before.lastGeneration + 1 || r.value == before.barrier + 1) &&
                        Row() == Some(before.(lastGeneration := r.value))
    {
      r := kv.Update(STATE_KEY, current => ReserveTxn(current), f);
    }

    method VoidGeneration(generation: int, f: Faults) returns (r: Result<(), SqliteError>)
      requires Valid()
      modifies kv, kv.conn
      ensures Valid() && Others() == old(Others())
      ensures Row() == if r.Ok? then Apply(old(Row()), Void(generation)) else old(Row())
      ensures var before := OrEmpty(old(Row()));
              r.Ok? ==>
                Row() == Some(before.(barrier := if generation > before.barrier then generation else before.barrier))
    {
      r := kv.Update(STATE_KEY, current => VoidTxn(generation, current), f);
    }

    /** `Ok(None)` is the `CommitInvalidated` refusal. */
    method SaveCommit(args: CommitArgs, sealed: Sealed, f: Faults) returns (r: Result<Option<CommitRecord>, SqliteError>)
      requires Valid()
      modifies kv, kv.conn
      ensures Valid() && Others() == old(Others())
      ensures Row() == if r.Ok? then Apply(old(Row()), Save(args, sealed)) else old(Row())
      ensures r.Ok? ==> (r.value.Some? <==> Admits(old(Row()), args))
      ensures r.Ok? && r.value.Some? ==>
                && RecordsArgs(r.value.value, args) && r.value.value.ackPending == args.ackPending
                && !r.value.value.invalidated
                && Row() == Some(OrEmpty(old(Row())).(sealed := Some(sealed), commit := r.value))
      ensures r.Ok? && r.value.None? ==> Row() == old(Row())
    {
      r := kv.Update(STATE_KEY, current => SaveTxn(args, sealed, current), f);
    }

    method MarkAckConfirmed(operationId: string, resultId: string, version: int, f: Faults)
      returns (r: Result<bool, SqliteError>)
      requires Valid()
      modifies kv, kv.conn
      ensures Valid() && Others() == old(Others())
      ensures Row() == if r.Ok? then Apply(old(Row()), Ack(operationId, resultId, version)) else old(Row())
      ensures r.Ok? ==> (r.value <==> Answers(old(Row()), operationId, resultId, version))
      ensures r == Ok(true) ==>
                var before := old(Row()).value;
                Row() == Some(before.(commit := Some(before.commit.value.(ackPending := false))))
      ensures r == Ok(false) ==> Row() == old(Row())
    {
      r := kv.Update(STATE_KEY, current => AckTxn(operationId, resultId, version, current), f);
    }

    method InvalidateCommit(operationId: string, f: Faults) returns (r: Result<bool, SqliteError>)
      requires Valid()
      modifies kv, kv.conn
      ensures Valid() && Others() == old(Others())
      ensures Row() == if r.Ok? then Apply(old(Row()), Invalidate(operationId)) else old(Row())
      ensures var before := OrEmpty(old(Row()));
              r.Ok? ==>
                && Row().Some?
                && Row().value.invalidatedOps ==
                   before.invalidatedOps + (if operationId in before.invalidatedOps then [] else [operationId])
                && Row().value ==
                   before.(invalidatedOps := Row().value.invalidatedOps,
                           commit := if Commits(old(Row()), operationId)
                                     then Some(before.commit.value.(invalidated := true)) else before.commit)
      ensures r.Ok? ==> (r.value <==> Commits(old(Row()), operationId))
    {
      r := kv.Update(STATE_KEY, current => InvalidateTxn(operationId, current), f);
    }

    method ClearCredentials(f: Faults) returns (r: Result<bool, SqliteError>)
      requires Valid()
      modifies kv, kv.conn
      ensures Valid() && Others() == old(Others())
      ensures Row() == if r.Ok? then Apply(old(Row()), Clear) else old(Row())
      ensures r.Ok? ==> OrEmpty(Row()) == OrEmpty(old(Row())).(sealed := None)
      ensures r.Ok? ==> (r.value <==> OrEmpty(old(Row())).sealed.Some?)
    {
      r := kv.Update(STATE_KEY, current => ClearTxn(current), f);
    }

    /** The current barrier; 0 without a row. */
    method CurrentBarrier(f: Faults) returns (r: Result<int, SqliteError>)
      requires Valid()
      ensures r.Ok? ==> r.value == OrEmpty(Row()).barrier
    {
      var row := kv.Get(STATE_KEY, f);
      return if row.Ok? then Ok(OrEmpty(row.value).barrier) else Err(row.error);
    }

    method LoadCommit(f: Faults) returns (r: Result<Option<CommitRecord>, SqliteError>)
      requires Valid()
      ensures r.Ok? ==> r.value == OrEmpty(Row()).commit
    {
      var row := kv.Get(STATE_KEY, f);
      return if row.Ok? then Ok(OrEmpty(row.value).commit) else Err(row.error);
    }
  }

  // ----- runs -------------------------------------------------------------------------

  /** A call of the store; one that fails raises and leaves the row as it was. A restart changes nothing. */
  datatype TokenCall = TokenCall(op: TokenOp, fails: bool)

  function Step(row: Option<TokenRow>, call: TokenCall): Option<TokenRow>
  {
    if call.fails then row else Apply(row, call.op)
  }

  function Run(row: Option<TokenRow>, calls: seq<TokenCall>): Option<TokenRow>
  {
    if calls == [] then row else Step(Run(row, calls[..|calls| - 1]), calls[|calls| - 1])
  }

  /** Neither scope voids this write. */
  predicate Admits(row: Option<TokenRow>, args: CommitArgs)
  {
    !Dead(row, args.operationId, args.generation)
  }

  /** The operation or the generation has been voided. */
  predicate Dead(row: Option<TokenRow>, operationId: string, generation: int)
  {
    operationId in OrEmpty(row).invalidatedOps || generation <= OrEmpty(row).barrier
  }

  /** The stored commit is this operation's. */
  predicate Commits(row: Option<TokenRow>, operationId: string)
  {
    OrEmpty(row).commit.Some? && OrEmpty(row).commit.value.operationId == operationId
  }

  predicate Answers(row: Option<TokenRow>, operationId: string, resultId: string, version: int)
  {
    var commit := OrEmpty(row).commit;
    commit.Some? && commit.value.operationId == operationId && commit.value.resultId == resultId &&
    commit.value.version == version
  }

  /** What startup recovery consults: the commit's own bit and the barrier. */
  predicate Recoverable(row: Option<TokenRow>)
  {
    var commit := OrEmpty(row).commit;
    commit.Some? && !commit.value.invalidated && commit.value.generation > OrEmpty(row).barrier
  }

  /** The commit's bit says whether its operation is in the void set. */
  ghost predicate BitMatchesVoids(row: Option<TokenRow>)
  {
    var commit := OrEmpty(row).commit;
    commit.Some? ==> (commit.value.invalidated <==> commit.value.operationId in OrEmpty(row).invalidatedOps)
  }

  lemma {:induction false} BitMatchesVoidsAlways(row: Option<TokenRow>, calls: seq<TokenCall>)
    requires BitMatchesVoids(row)
    ensures BitMatchesVoids(Run(row, calls))
  {
    if calls != [] {
      BitMatchesVoidsAlways(row, calls[..|calls| - 1]);
    }
  }

  lemma DeadStep(row: Option<TokenRow>, call: TokenCall, operationId: string, generation: int)
    requires Dead(row, operationId, generation)
    ensures Dead(Step(row, call), operationId, generation)
  {
  }

  /** A void, at either scope, outlives every later call and restart. */
  lemma {:induction false} DeadForever(row: Option<TokenRow>, calls: seq<TokenCall>, operationId: string,
                                       generation: int)
    requires Dead(row, operationId, generation)
    ensures Dead(Run(row, calls), operationId, generation)
  {
    if calls != [] {
      DeadForever(row, calls[..|calls| - 1], operationId, generation);
      DeadStep(Run(row, calls[..|calls| - 1]), calls[|calls| - 1], operationId, generation);
    }
  }

  lemma {:induction false} RunSplit(row: Option<TokenRow>, calls: seq<TokenCall>, i: nat)
    requires i <= |calls|
    ensures Run(row, calls) == Run(Run(row, calls[..i]), calls[i..])
  {
    if i == |calls| {
      assert calls[..i] == calls;
    } else {
      var n := |calls| - 1;
      RunSplit(row, calls[..n], i);
      assert calls[..n][..i] == calls[..i];
      assert calls[i..][..n - i] == calls[..n][i..];
    }
  }

  /** Once a call has killed an operation and generation, a later save of them changes nothing. */
  lemma DeadSaveBounces(row: Option<TokenRow>, calls: seq<TokenCall>, i: nat, j: nat)
    requires i < j < |calls| && calls[j].op.Save?
    requires Dead(Step(Run(row, calls[..i]), calls[i]), calls[j].op.args.operationId, calls[j].op.args.generation)
    ensures !Admits(Run(row, calls[..j]), calls[j].op.args)
    ensures Step(Run(row, calls[..j]), calls[j]) == Run(row, calls[..j])
  {
    var args := calls[j].op.args;
    assert calls[..i + 1][..i] == calls[..i];
    assert calls[..j][..i + 1] == calls[..i + 1];
    RunSplit(row, calls[..j], i + 1);
    DeadForever(Run(row, calls[..i + 1]), calls[..j][i + 1..], args.operationId, args.generation);
  }

  /** After `void_generation(g)` no commit with generation at most `g` lands. */
  lemma VoidedGenerationNeverCommits(row: Option<TokenRow>, calls: seq<TokenCall>, i: nat, j: nat)
    requires i < j < |calls|
    requires calls[i].op.Void? && !calls[i].fails && calls[j].op.Save?
    requires calls[j].op.args.generation <= calls[i].op.generation
    ensures !Admits(Run(row, calls[..j]), calls[j].op.args)
    ensures Step(Run(row, calls[..j]), calls[j]) == Run(row, calls[..j])
  {
    DeadSaveBounces(row, calls, i, j);
  }

  /** After `invalidate_commit(op)` no commit for that operation lands, even if nothing was committed then. */
  lemma InvalidatedOperationNeverCommits(row: Option<TokenRow>, calls: seq<TokenCall>, i: nat, j: nat)
    requires i < j < |calls|
    requires calls[i].op.Invalidate? && !calls[i].fails && calls[j].op.Save?
    requires calls[j].op.args.operationId == calls[i].op.operationId
    ensures !Admits(Run(row, calls[..j]), calls[j].op.args)
    ensures Step(Run(row, calls[..j]), calls[j]) == Run(row, calls[..j])
  {
    DeadSaveBounces(row, calls, i, j);
  }

  lemma RecoverableIffAlive(row: Option<TokenRow>)
    requires BitMatchesVoids(row) && OrEmpty(row).commit.Some?
    ensures var c := OrEmpty(row).commit.value; Recoverable(row) <==> !Dead(row, c.operationId, c.generation)
  {
  }

  /** A commit that is not recoverable never becomes recoverable again, whatever is called afterwards. */
  lemma NeverRecoverableAgain(row: Option<TokenRow>, calls: seq<TokenCall>)
    requires BitMatchesVoids(row) && OrEmpty(row).commit.Some? && !Recoverable(row)
    ensures var before, after := OrEmpty(row).commit.value, OrEmpty(Run(row, calls)).commit;
            Recoverable(Run(row, calls)) ==>
              after.Some? && (after.value.operationId != before.operationId || after.value.generation != before.generation)
  {
    var c := OrEmpty(row).commit.value;
    RecoverableIffAlive(row);
    DeadForever(row, calls, c.operationId, c.generation);
    BitMatchesVoidsAlways(row, calls);
    if Recoverable(Run(row, calls)) {
      RecoverableIffAlive(Run(row, calls));
    }
  }

  /** Call `i` is a save that landed. */
  ghost predicate LandedAt(calls: seq<TokenCall>, i: nat)
  {
    i < |calls| && !calls[i].fails && calls[i].op.Save? && Admits(Run(None, calls[..i]), calls[i].op.args)
  }

  ghost predicate LastLanded(calls: seq<TokenCall>, i: nat)
  {
    LandedAt(calls, i) && forall k | i < k < |calls| :: !LandedAt(calls, k)
  }

  /** The stored commit is the one this save wrote, up to the two flags that later calls may flip. */
  ghost predicate WrittenBy(row: TokenRow, op: TokenOp)
    requires op.Save?
  {
    && row.commit.Some? && RecordsArgs(row.commit.value, op.args)
    && (row.sealed.Some? ==> row.sealed.value == op.sealed)
  }

  /** The stored commit and sealed bytes are those of the last save that landed, if any did. */
  ghost predicate WrittenByLast(calls: seq<TokenCall>)
  {
    var row := OrEmpty(Run(None, calls));
    if row.commit.None? then row.sealed.None? && forall i: nat :: !LandedAt(calls, i)
    else exists i: nat :: LastLanded(calls, i) && WrittenBy(row, calls[i].op)
  }

  lemma PrefixLanded(calls: seq<TokenCall>, i: nat)
    requires calls != [] && i < |calls| - 1
    ensures LandedAt(calls, i) <==> LandedAt(calls[..|calls| - 1], i)
  {
    assert calls[..|calls| - 1][..i] == calls[..i];
  }

  /** A call that lands no save leaves the stored commit to its writer. */
  lemma WriterKept(row: Option<TokenRow>, call: TokenCall, op: TokenOp)
    requires op.Save? && OrEmpty(row).commit.Some? && WrittenBy(OrEmpty(row), op)
    requires !call.fails && call.op.Save? ==> !Admits(row, call.op.args)
    ensures WrittenBy(OrEmpty(Step(row, call)), op)
  {
  }

  lemma NothingLands(row: Option<TokenRow>, call: TokenCall)
    requires OrEmpty(row).commit.None? && OrEmpty(row).sealed.None?
    requires !call.fails && call.op.Save? ==> !Admits(row, call.op.args)
    ensures OrEmpty(Step(row, call)).commit.None? && OrEmpty(Step(row, call)).sealed.None?
  {
  }

  /** From an empty store, the sealed bytes and the commit are those of one and the same call: the last save that landed. */
  lemma {:induction false} SealedBelongsToCommit(calls: seq<TokenCall>)
    ensures WrittenByLast(calls)
  {
    if calls != [] {
      var n := |calls| - 1;
      var before, row := calls[..n], Run(None, calls[..n]);
      SealedBelongsToCommit(before);
      forall i: nat | i < n ensures LandedAt(calls, i) <==> LandedAt(before, i) {
        PrefixLanded(calls, i);
      }
      if LandedAt(calls, n) {
        assert LastLanded(calls, n) && WrittenBy(OrEmpty(Step(row, calls[n])), calls[n].op);
      } else if OrEmpty(row).commit.Some? {
        var i: nat :| LastLanded(before, i) && WrittenBy(OrEmpty(row), before[i].op);
        WriterKept(row, calls[n], before[i].op);
        assert LastLanded(calls, i);
      } else {
        NothingLands(row, calls[n]);
      }
    }
  }

  /** Call `k` acknowledges what these arguments were saved under. */
  ghost predicate Acknowledges(calls: seq<TokenCall>, k: nat, a: CommitArgs)
  {
    k < |calls| && calls[k] == TokenCall(Ack(a.operationId, a.resultId, a.version), false)
  }

  ghost predicate AcknowledgedSince(calls: seq<TokenCall>, i: nat, a: CommitArgs)
  {
    exists k: nat :: i < k && Acknowledges(calls, k, a)
  }

  lemma PrefixAcknowledged(calls: seq<TokenCall>, before: seq<TokenCall>, i: nat, a: CommitArgs)
    requires calls != [] && before == calls[..|calls| - 1] && i < |before|
    ensures AcknowledgedSince(calls, i, a) <==> AcknowledgedSince(before, i, a) || Acknowledges(calls, |before|, a)
  {
    assert forall k: nat | k < |before| :: Acknowledges(calls, k, a) <==> Acknowledges(before, k, a);
    if k: nat :| i < k && Acknowledges(before, k, a) {
      assert Acknowledges(calls, k, a);
    }
    if k: nat :| i < k && Acknowledges(calls, k, a) {
      assert k < |before| ==> Acknowledges(before, k, a);
    }
  }

  /** The flag after one more call, if the commit stays this save's. */
  lemma PendingStep(row: Option<TokenRow>, call: TokenCall, a: CommitArgs)
    requires OrEmpty(row).commit.Some? && RecordsArgs(OrEmpty(row).commit.value, a)
    requires !call.fails && call.op.Save? ==> !Admits(row, call.op.args)
    ensures var after := OrEmpty(Step(row, call)).commit;
            && after.Some? && RecordsArgs(after.value, a)
            && (after.value.ackPending <==>
                  OrEmpty(row).commit.value.ackPending &&
                  call != TokenCall(Ack(a.operationId, a.resultId, a.version), false))
  {
  }

  /**
   The commit of the last save that landed is stored under its arguments, whatever was called since, and
   its pending flag is up exactly while that save asked for it and no acknowledgement has named it.
   */
  lemma {:induction false} PendingUntilAcknowledged(calls: seq<TokenCall>, i: nat)
    requires LastLanded(calls, i)
    ensures var commit, a := OrEmpty(Run(None, calls)).commit, calls[i].op.args;
            && commit.Some? && RecordsArgs(commit.value, a)
            && (commit.value.ackPending <==> a.ackPending && !AcknowledgedSince(calls, i, a))
  {
    var n := |calls| - 1;
    var before := calls[..n];
    if i == n {
      assert calls[..n] == before;
    } else {
      PrefixLanded(calls, i);
      forall k: nat | k < n ensures LandedAt(calls, k) <==> LandedAt(before, k) {
        PrefixLanded(calls, k);
      }
      assert LastLanded(before, i);
      PendingUntilAcknowledged(before, i);
      PrefixAcknowledged(calls, before, i, calls[i].op.args);
      assert !LandedAt(calls, n);
      PendingStep(Run(None, before), calls[n], calls[i].op.args);
    }
  }

  /** So the acknowledgement that names the last landed save answers true and clears the flag; any other changes nothing. */
  lemma AcknowledgementAnswers(calls: seq<TokenCall>, i: nat, operationId: string, resultId: string, version: int)
    requires LastLanded(calls, i)
    ensures var row, a := Run(None, calls), calls[i].op.args;
            var acked := Step(row, TokenCall(Ack(operationId, resultId, version), false));
            var named := operationId == a.operationId && resultId == a.resultId && version == a.version;
            && (Answers(row, operationId, resultId, version) <==> named)
            && (named ==> OrEmpty(acked).commit.Some? && !OrEmpty(acked).commit.value.ackPending &&
                          RecordsArgs(OrEmpty(acked).commit.value, a))
            && (!named ==> acked == row)
  {
    PendingUntilAcknowledged(calls, i);
  }

  lemma {:induction false} LastGenerationGrows(row: Option<TokenRow>, calls: seq<TokenCall>)
    ensures OrEmpty(Run(row, calls)).lastGeneration >= OrEmpty(row).lastGeneration
  {
    if calls != [] {
      LastGenerationGrows(row, calls[..|calls| - 1]);
    }
  }

  /** Each reserved generation exceeds the barrier then in force and every generation reserved before it. */
  lemma ReservedGenerationsAreFresh(row: Option<TokenRow>, calls: seq<TokenCall>, i: nat, j: nat)
    requires i < j < |calls|
    requires calls[i] == TokenCall(Reserve, false) && calls[j] == TokenCall(Reserve, false)
    ensures var gi := OrEmpty(Step(Run(row, calls[..i]), calls[i])).lastGeneration;
            var gj := OrEmpty(Step(Run(row, calls[..j]), calls[j])).lastGeneration;
            gi < gj && OrEmpty(Run(row, calls[..j])).barrier < gj
  {
    assert calls[..i + 1][..i] == calls[..i] && calls[..j][..i + 1] == calls[..i + 1];
    RunSplit(row, calls[..j], i + 1);
    LastGenerationGrows(Run(row, calls[..i + 1]), calls[..j][i + 1..]);
  }

  /** Only an acknowledgement that names the stored commit clears its pending flag; a stale one changes nothing. */
  lemma PendingClearedOnlyByMatch(row: Option<TokenRow>, call: TokenCall)
    requires OrEmpty(row).commit.Some? && OrEmpty(row).commit.value.ackPending
    ensures var before, after := OrEmpty(row).commit.value, OrEmpty(Step(row, call)).commit.value;
            OrEmpty(Step(row, call)).commit.Some? &&
            (after.ackPending ||
             (call.op.Save? && RecordsArgs(after, call.op.args) && !after.invalidated) ||
             (call.op.Ack? && Answers(row, call.op.operationId, call.op.resultId, call.op.version) &&
              after == before.(ackPending := false)))
    ensures call.op.Ack? && !Answers(row, call.op.operationId, call.op.resultId, call.op.version) ==>
            Step(row, call) == row
  {
  }
}
