/**
 Any number of gate calls interleaved at their atomic steps, and what holds in every state they
 can reach: single use, and one audit row per verdict.
 */
module GateRuns {
  import opened Wrappers
  import opened Jcs
  import opened Capability
  import opened Service
  import opened AuthzState
  import opened DecisionPolicy
  import opened Gate
  import opened GateChecks
  import opened GateMachine

  // ----- what a stage says about how its call got there -------------------------------

  /** A head that came out of the verification of something the relay delivered. */
  ghost predicate Genuine(logic: GateLogic, head: VerifiedHead)
  {
    exists env :: logic.acceptEnvelope(env) == Passed(head)
  }

  /** Every check that precedes the request consumer. */
  ghost predicate PassedLocal(logic: GateLogic, ctx: CallContext, head: VerifiedHead, grant: Grant)
  {
    && Genuine(logic, head)
    && logic.verifyGrant(ctx.request) == Passed(grant)
    && exists peer :: logic.localDecisions(ctx.request, ctx.now, head, grant, peer).Passed?
  }

  /** Every check that precedes the decision consumer. */
  ghost predicate PassedAll(logic: GateLogic, ctx: CallContext, head: VerifiedHead, grant: Grant, decision: Decision)
  {
    && PassedLocal(logic, ctx, head, grant)
    && exists wall, elapsed :: logic.verifyResponse(ctx, head, grant, decision, wall, elapsed).Passed?
  }

  ghost predicate Justified(logic: GateLogic, call: GateCall)
  {
    match call
    case CheckingMark(_, head) => Genuine(logic, head)
    case RaisingMark(_, head) => Genuine(logic, head)
    case ConsumingRequest(ctx, head, grant) => PassedLocal(logic, ctx, head, grant)
    case Deciding(ctx, head, grant) => PassedLocal(logic, ctx, head, grant)
    case ConsumingDecision(ctx, head, grant, decision, _) => PassedAll(logic, ctx, head, grant, decision)
    case Recording(ctx, head, grant, decision, _) => PassedAll(logic, ctx, head, grant, decision)
    case Authorized(ctx, head, grant, decision, _) => PassedAll(logic, ctx, head, grant, decision)
    case Unrecorded(ctx, head, grant, decision, _) => PassedAll(logic, ctx, head, grant, decision)
    case _ => true
  }

  /** The call has accepted its head: it is past raising the mark, on the way to an authorization. */
  predicate Accepted(call: GateCall)
  {
    call.ConsumingRequest? || call.Deciding? || call.ConsumingDecision? || HoldsDecision(call)
  }

  /** The call consumed its decision id. */
  predicate HoldsDecision(call: GateCall)
  {
    call.Recording? || call.Authorized? || call.Unrecorded?
  }

  lemma StepJustified(logic: GateLogic, call: GateCall, st: GateState, input: Input)
    requires Justified(logic, call)
    ensures Justified(logic, GateStep(logic, call, st, input).0)
  {
    match call
    case RaisingMark(ctx, head) =>
      if AfterAccept(logic, ctx, head, input.peer).ConsumingRequest? {
        var grant := logic.verifyGrant(ctx.request).value;
        assert logic.localDecisions(ctx.request, ctx.now, head, grant, input.peer).Passed?;
      }
    case Deciding(ctx, head, grant) =>
      if AfterDecide(logic, ctx, head, grant, input).ConsumingDecision? {
        assert logic.verifyResponse(ctx, head, grant, input.decide.decision, input.wallVerified,
                                    Elapsed(input)).Passed?;
      }
    case _ =>
  }

  // ----- interleaved runs -------------------------------------------------------------

  type GrantRequest = (string, string)

  /** `decides` logs the calls of `decide` by grant and request; `owners` says which call wrote each audit row. */
  datatype World = World(st: GateState, calls: map<nat, GateCall>, decides: seq<GrantRequest>, owners: seq<nat>)

  datatype Event = Start(id: nat, ctx: CallContext) | Advance(id: nat, input: Input)

  function PairOf(call: GateCall): GrantRequest
    requires call.Deciding?
  {
    (call.grant.grantId, call.ctx.request.requestId)
  }

  /** Call `id` has gone on to `call'`, leaving the shared state as `st'`. */
  function Moved(w: World, id: nat, call': GateCall, st': GateState): World
    requires id in w.calls
  {
    World(st', w.calls[id := call'],
          if w.calls[id].Deciding? then w.decides + [PairOf(w.calls[id])] else w.decides,
          if |st'.audit| > |w.st.audit| then w.owners + [id] else w.owners)
  }

  function Step(logic: GateLogic, w: World, e: Event): World
  {
    match e
    case Start(id, ctx) => if id in w.calls then w else w.(calls := w.calls[id := Syncing(ctx)])
    case Advance(id, input) =>
      if id !in w.calls then w
      else
        var (call', st') := GateStep(logic, w.calls[id], w.st, input);
        Moved(w, id, call', st')
  }

  function Run(logic: GateLogic, w: World, events: seq<Event>): World
  {
    if events == [] then w else Step(logic, Run(logic, w, events[..|events| - 1]), events[|events| - 1])
  }

  /** A gate just constructed: empty consumers and log, any mark. */
  ghost predicate Initial(w: World)
  {
    w.st.requests == map[] && w.st.decisions == map[] && w.st.audit == [] && w.calls == map[] && w.decides == [] &&
    w.owners == []
  }

  // ----- invariants -------------------------------------------------------------------

  ghost predicate CallsJustified(logic: GateLogic, w: World)
  {
    forall id | id in w.calls :: Justified(logic, w.calls[id])
  }

  ghost predicate MarkCovers(w: World)
  {
    forall id | id in w.calls && Accepted(w.calls[id]) :: w.calls[id].head.content.version <= w.st.mark
  }

  function KeyOf(p: GrantRequest): string
  {
    RequestKey(p.0, p.1)
  }

  ghost predicate DecidesConsumed(w: World)
  {
    forall i | 0 <= i < |w.decides| :: KeyOf(w.decides[i]) in w.st.requests
  }

  ghost predicate DecidesDistinct(w: World)
  {
    forall i, j | 0 <= i < j < |w.decides| :: KeyOf(w.decides[i]) != KeyOf(w.decides[j])
  }

  /** Consumed, and not decided on yet. */
  ghost predicate PendingKey(w: World, key: string)
  {
    key in w.st.requests && forall i | 0 <= i < |w.decides| :: KeyOf(w.decides[i]) != key
  }

  ghost predicate IsDeciding(w: World, id: nat)
  {
    id in w.calls && w.calls[id].Deciding?
  }

  ghost predicate DecidingPending(w: World)
  {
    forall id | IsDeciding(w, id) :: PendingKey(w, KeyOf(PairOf(w.calls[id])))
  }

  ghost predicate DecidingDistinct(w: World)
  {
    forall a, b | IsDeciding(w, a) && IsDeciding(w, b) && a != b ::
      KeyOf(PairOf(w.calls[a])) != KeyOf(PairOf(w.calls[b]))
  }

  ghost predicate RequestsSingleUse(w: World)
  {
    DecidesConsumed(w) && DecidesDistinct(w) && DecidingPending(w) && DecidingDistinct(w)
  }

  ghost predicate Holds(w: World, id: nat)
  {
    id in w.calls && HoldsDecision(w.calls[id])
  }

  ghost predicate HeldConsumed(w: World)
  {
    forall id | Holds(w, id) :: w.calls[id].decision.decisionId in w.st.decisions
  }

  ghost predicate HeldDistinct(w: World)
  {
    forall a, b | Holds(w, a) && Holds(w, b) && a != b ::
      w.calls[a].decision.decisionId != w.calls[b].decision.decisionId
  }

  ghost predicate ConsumedHeld(w: World)
  {
    forall d | d in w.st.decisions :: exists id :: Consumer(w, id, d)
  }

  ghost predicate DecisionsSingleUse(w: World)
  {
    HeldConsumed(w) && HeldDistinct(w) && ConsumedHeld(w)
  }

  ghost predicate Consumer(w: World, id: nat, decisionId: string)
  {
    id in w.calls && HoldsDecision(w.calls[id]) && w.calls[id].decision.decisionId == decisionId
  }

  predicate Verdict(call: GateCall)
  {
    call.Authorized? || call.Denied?
  }

  /** The row a verdict leaves: the gate's own derivation for an authorization, a denial code otherwise. */
  ghost predicate RowFits(call: GateCall, row: AuditRow)
  {
    && row.requestId == call.ctx.request.requestId
    && (call.Authorized? ==> row == SuccessRow(call.ctx, call.head, call.grant, call.decision) && IsSuccess(row))
    && (call.Denied? ==> !IsSuccess(row))
  }

  ghost predicate OwnerFits(w: World, i: nat)
    requires i < |w.owners| && i < |w.st.audit|
  {
    var id := w.owners[i];
    id in w.calls && Verdict(w.calls[id]) && RowFits(w.calls[id], w.st.audit[i])
  }

  ghost predicate OwnersFit(w: World)
  {
    |w.owners| == |w.st.audit| && forall i | 0 <= i < |w.owners| :: OwnerFits(w, i)
  }

  ghost predicate OwnersDistinct(w: World)
  {
    forall i, j | 0 <= i < j < |w.owners| :: w.owners[i] != w.owners[j]
  }

  ghost predicate VerdictsOwned(w: World)
  {
    forall id | id in w.calls && Verdict(w.calls[id]) :: id in w.owners
  }

  ghost predicate OneRowPerVerdict(w: World)
  {
    OwnersFit(w) && OwnersDistinct(w) && VerdictsOwned(w)
  }

  ghost predicate Inv(logic: GateLogic, w: World)
  {
    CallsJustified(logic, w) && MarkCovers(w) && RequestsSingleUse(w) && DecisionsSingleUse(w) && OneRowPerVerdict(w)
  }

  /** A grant id holds no NUL, so the consumer key determines grant and request. */
  lemma RequestKeyInjective(g: string, r: string, g': string, r': string)
    requires MatchesGrantId(g) && MatchesGrantId(g') && RequestKey(g, r) == RequestKey(g', r')
    ensures g == g' && r == r'
  {
    var key := RequestKey(g, r);
    assert NoNul(g) && NoNul(g') by { GrantIdHasNoNul(g); GrantIdHasNoNul(g'); }
    assert key[|g|] == '\0' && key[|g'|] == '\0';
    assert forall i | 0 <= i < |g| :: key[i] == g[i];
    assert forall i | 0 <= i < |g'| :: key[i] == g'[i];
    assert |g| == |g'|;
    assert key[..|g|] == g && key[..|g'|] == g';
    assert key[|g| + 1..] == r && key[|g'| + 1..] == r';
  }

  ghost predicate NoNul(s: string)
  {
    forall i | 0 <= i < |s| :: s[i] != '\0'
  }

  lemma GrantIdHasNoNul(g: string)
    requires MatchesGrantId(g)
    ensures NoNul(g)
  {
    forall i | 0 <= i < |g| ensures g[i] != '\0' {
      assert i < |DropNewline(g)| ==> g[i] == DropNewline(g)[i] && IsLowerHex(DropNewline(g)[i]);
    }
  }

  lemma StepCallsJustified(logic: GateLogic, w: World, e: Event)
    requires CallsJustified(logic, w)
    ensures CallsJustified(logic, Step(logic, w, e))
  {
    if e.Advance? && e.id in w.calls {
      StepJustified(logic, w.calls[e.id], w.st, e.input);
    }
  }

  lemma StepMarkCovers(logic: GateLogic, w: World, e: Event)
    requires MarkCovers(w)
    ensures MarkCovers(Step(logic, w, e)) && Step(logic, w, e).st.mark >= w.st.mark
  {
  }

  // ----- one lemma for each conjunct --------------------------------------------------

  /** A call comes to decide only by consuming its key, which was free. */
  ghost predicate RequestEffect(call: GateCall, st: GateState, call': GateCall, st': GateState)
  {
    if call'.Deciding? then
      && !call.Deciding? && KeyOf(PairOf(call')) !in st.requests
      && st'.requests.Keys == st.requests.Keys + {KeyOf(PairOf(call'))}
    else st'.requests == st.requests
  }

  lemma StepRequestEffect(logic: GateLogic, call: GateCall, st: GateState, input: Input)
    requires !call.Ended()
    ensures var (call', st') := GateStep(logic, call, st, input); RequestEffect(call, st, call', st')
  {
  }

  lemma MovedDecides(w: World, id: nat, call': GateCall, st': GateState)
    requires RequestsSingleUse(w) && id in w.calls && RequestEffect(w.calls[id], w.st, call', st')
    ensures var w' := Moved(w, id, call', st'); DecidesConsumed(w') && DecidesDistinct(w')
  {
    var w' := Moved(w, id, call', st');
    assert w.calls[id].Deciding? ==> IsDeciding(w, id) && PendingKey(w, KeyOf(PairOf(w.calls[id])));
    forall i | 0 <= i < |w'.decides| ensures KeyOf(w'.decides[i]) in w'.st.requests {
      assert i < |w.decides| ==> w'.decides[i] == w.decides[i];
    }
    forall i, j | 0 <= i < j < |w'.decides| ensures KeyOf(w'.decides[i]) != KeyOf(w'.decides[j]) {
      assert w'.decides[i] == w.decides[i];
    }
  }

  lemma MovedPending(w: World, id: nat, call': GateCall, st': GateState)
    requires RequestsSingleUse(w) && id in w.calls && RequestEffect(w.calls[id], w.st, call', st')
    ensures DecidingPending(Moved(w, id, call', st'))
  {
    var w' := Moved(w, id, call', st');
    forall k | IsDeciding(w', k) ensures PendingKey(w', KeyOf(PairOf(w'.calls[k]))) {
      if k != id {
        assert IsDeciding(w, k) && PendingKey(w, KeyOf(PairOf(w.calls[k])));
        assert w.calls[id].Deciding? ==> IsDeciding(w, id);
      }
    }
  }

  lemma MovedDeciding(w: World, id: nat, call': GateCall, st': GateState)
    requires RequestsSingleUse(w) && id in w.calls && RequestEffect(w.calls[id], w.st, call', st')
    ensures DecidingDistinct(Moved(w, id, call', st'))
  {
    var w' := Moved(w, id, call', st');
    forall a, b | IsDeciding(w', a) && IsDeciding(w', b) && a != b
      ensures KeyOf(PairOf(w'.calls[a])) != KeyOf(PairOf(w'.calls[b]))
    {
      assert a != id ==> IsDeciding(w, a) && PendingKey(w, KeyOf(PairOf(w.calls[a])));
      assert b != id ==> IsDeciding(w, b) && PendingKey(w, KeyOf(PairOf(w.calls[b])));
    }
  }

  /** A decision id is consumed by exactly the call that comes to hold it, and was free. */
  ghost predicate DecisionEffect(call: GateCall, st: GateState, call': GateCall, st': GateState)
  {
    if HoldsDecision(call) then HoldsDecision(call') && call'.decision == call.decision && st'.decisions == st.decisions
    else if HoldsDecision(call') then
      && call'.decision.decisionId !in st.decisions
      && st'.decisions.Keys == st.decisions.Keys + {call'.decision.decisionId}
    else st'.decisions == st.decisions
  }

  lemma StepDecisionEffect(logic: GateLogic, call: GateCall, st: GateState, input: Input)
    ensures var (call', st') := GateStep(logic, call, st, input); DecisionEffect(call, st, call', st')
  {
  }

  lemma MovedHeld(w: World, id: nat, call': GateCall, st': GateState)
    requires HeldConsumed(w) && HeldDistinct(w) && id in w.calls && DecisionEffect(w.calls[id], w.st, call', st')
    ensures var w' := Moved(w, id, call', st'); HeldConsumed(w') && HeldDistinct(w')
  {
    var w' := Moved(w, id, call', st');
    forall k | Holds(w', k) ensures w'.calls[k].decision.decisionId in w'.st.decisions {
      assert k != id || HoldsDecision(w.calls[id]) ==> Holds(w, k);
    }
    forall a, b | Holds(w', a) && Holds(w', b) && a != b
      ensures w'.calls[a].decision.decisionId != w'.calls[b].decision.decisionId
    {
      assert a != id || HoldsDecision(w.calls[id]) ==> Holds(w, a);
      assert b != id || HoldsDecision(w.calls[id]) ==> Holds(w, b);
    }
  }

  lemma MovedConsumed(w: World, id: nat, call': GateCall, st': GateState)
    requires ConsumedHeld(w) && id in w.calls && DecisionEffect(w.calls[id], w.st, call', st')
    ensures ConsumedHeld(Moved(w, id, call', st'))
  {
    var w' := Moved(w, id, call', st');
    forall d | d in w'.st.decisions ensures exists k :: Consumer(w', k, d) {
      if d in w.st.decisions {
        var k :| Consumer(w, k, d);
        assert Consumer(w', k, d);
      } else {
        assert Consumer(w', id, d);
      }
    }
  }

  /** A row is written exactly by the step that gives the verdict, and it is that verdict's row. */
  ghost predicate RowEffect(call: GateCall, st: GateState, call': GateCall, st': GateState)
  {
    if |st'.audit| > |st.audit| then
      && !Verdict(call) && Verdict(call') && |st'.audit| == |st.audit| + 1
      && st.audit <= st'.audit && RowFits(call', st'.audit[|st.audit|])
    else st'.audit == st.audit && (Verdict(call') <==> Verdict(call)) && (Verdict(call) ==> call' == call)
  }

  lemma StepRowEffect(logic: GateLogic, call: GateCall, st: GateState, input: Input)
    requires Sound(logic) && Justified(logic, call)
    ensures var (call', st') := GateStep(logic, call, st, input); RowEffect(call, st, call', st')
  {
  }

  lemma MovedOwnersFit(w: World, id: nat, call': GateCall, st': GateState)
    requires OwnersFit(w) && id in w.calls && RowEffect(w.calls[id], w.st, call', st')
    ensures OwnersFit(Moved(w, id, call', st'))
  {
    var w' := Moved(w, id, call', st');
    forall i | 0 <= i < |w'.owners| ensures OwnerFits(w', i) {
      if i < |w.owners| {
        assert OwnerFits(w, i) && w'.owners[i] == w.owners[i] && w'.st.audit[i] == w.st.audit[i];
      }
    }
  }

  lemma MovedOwners(w: World, id: nat, call': GateCall, st': GateState)
    requires OneRowPerVerdict(w) && id in w.calls && RowEffect(w.calls[id], w.st, call', st')
    ensures var w' := Moved(w, id, call', st'); OwnersDistinct(w') && VerdictsOwned(w')
  {
    var w' := Moved(w, id, call', st');
    forall i, j | 0 <= i < j < |w'.owners| ensures w'.owners[i] != w'.owners[j] {
      assert w'.owners[i] == w.owners[i] && OwnerFits(w, i);
    }
    forall k | k in w'.calls && Verdict(w'.calls[k]) ensures k in w'.owners {
      if k == id && !Verdict(w.calls[id]) {
        assert w'.owners[|w.owners|] == id;
      } else {
        var i :| 0 <= i < |w.owners| && w.owners[i] == k;
        assert w'.owners[i] == k;
      }
    }
  }

  lemma StepRequests(logic: GateLogic, w: World, id: nat, input: Input)
    requires RequestsSingleUse(w) && id in w.calls && !w.calls[id].Ended()
    ensures RequestsSingleUse(Step(logic, w, Advance(id, input)))
  {
    var (call', st') := GateStep(logic, w.calls[id], w.st, input);
    StepRequestEffect(logic, w.calls[id], w.st, input);
    MovedDecides(w, id, call', st');
    MovedPending(w, id, call', st');
    MovedDeciding(w, id, call', st');
  }

  lemma StepDecisions(logic: GateLogic, w: World, id: nat, input: Input)
    requires DecisionsSingleUse(w) && id in w.calls
    ensures DecisionsSingleUse(Step(logic, w, Advance(id, input)))
  {
    var (call', st') := GateStep(logic, w.calls[id], w.st, input);
    StepDecisionEffect(logic, w.calls[id], w.st, input);
    MovedHeld(w, id, call', st');
    MovedConsumed(w, id, call', st');
  }

  lemma StepAudit(logic: GateLogic, w: World, id: nat, input: Input)
    requires Sound(logic) && id in w.calls && Justified(logic, w.calls[id]) && OneRowPerVerdict(w)
    ensures OneRowPerVerdict(Step(logic, w, Advance(id, input)))
  {
    var (call', st') := GateStep(logic, w.calls[id], w.st, input);
    StepRowEffect(logic, w.calls[id], w.st, input);
    MovedOwnersFit(w, id, call', st');
    MovedOwners(w, id, call', st');
  }

  /** A call that starts is nowhere near any of this. */
  lemma StartKeeps(w: World, w': World, id: nat, ctx: CallContext)
    requires id !in w.calls && w' == w.(calls := w.calls[id := Syncing(ctx)])
    ensures RequestsSingleUse(w) ==> RequestsSingleUse(w')
    ensures DecisionsSingleUse(w) ==> DecisionsSingleUse(w')
    ensures OneRowPerVerdict(w) ==> OneRowPerVerdict(w')
  {
    StartKeepsRequests(w, w', id, ctx);
    StartKeepsDecisions(w, w', id, ctx);
    StartKeepsRows(w, w', id, ctx);
  }

  lemma StartKeepsRequests(w: World, w': World, id: nat, ctx: CallContext)
    requires id !in w.calls && w' == w.(calls := w.calls[id := Syncing(ctx)])
    ensures RequestsSingleUse(w) ==> RequestsSingleUse(w')
  {
    forall k | IsDeciding(w', k) ensures IsDeciding(w, k) {
    }
    forall key | PendingKey(w, key) ensures PendingKey(w', key) {
    }
  }

  lemma StartKeepsDecisions(w: World, w': World, id: nat, ctx: CallContext)
    requires id !in w.calls && w' == w.(calls := w.calls[id := Syncing(ctx)])
    ensures DecisionsSingleUse(w) ==> DecisionsSingleUse(w')
  {
    forall k | Holds(w', k) ensures Holds(w, k) {
    }
    forall k, d | Consumer(w, k, d) ensures Consumer(w', k, d) {
    }
  }

  lemma StartKeepsRows(w: World, w': World, id: nat, ctx: CallContext)
    requires id !in w.calls && w' == w.(calls := w.calls[id := Syncing(ctx)])
    ensures OneRowPerVerdict(w) ==> OneRowPerVerdict(w')
  {
    if OneRowPerVerdict(w) {
      forall i | 0 <= i < |w'.owners| ensures OwnerFits(w', i) {
        assert OwnerFits(w, i);
      }
    }
  }

  lemma {:induction false} RunInv(logic: GateLogic, w: World, events: seq<Event>)
    requires Sound(logic) && Inv(logic, w)
    ensures Inv(logic, Run(logic, w, events))
  {
    if events != [] {
      var before, e := Run(logic, w, events[..|events| - 1]), events[|events| - 1];
      RunInv(logic, w, events[..|events| - 1]);
      StepInv(logic, before, e);
    }
  }

  lemma StepInv(logic: GateLogic, w: World, e: Event)
    requires Sound(logic) && Inv(logic, w)
    ensures Inv(logic, Step(logic, w, e))
  {
    StepCallsJustified(logic, w, e);
    StepMarkCovers(logic, w, e);
    match e
    case Start(id, ctx) =>
      if id !in w.calls {
        StartKeeps(w, Step(logic, w, e), id, ctx);
      }
    case Advance(id, input) =>
      if id in w.calls {
        if w.calls[id].Ended() {
          assert Step(logic, w, e) == w;
        } else {
          StepRequests(logic, w, id, input);
          StepDecisions(logic, w, id, input);
          StepAudit(logic, w, id, input);
        }
      }
  }

  lemma ReachableInv(logic: GateLogic, w: World, events: seq<Event>)
    requires Sound(logic) && Initial(w)
    ensures Inv(logic, Run(logic, w, events))
  {
    RunInv(logic, w, events);
  }

  // ----- single use -------------------------------------------------------------------

  /**
   Under every interleaving: `decide` runs at most once per grant and request, no two calls are
   authorized by one decision id, and a decision id is consumed only by a call that passed every
   other check.
   */
  lemma SingleUse(cfg: GateConfig, w0: World, events: seq<Event>)
    requires Initial(w0)
    ensures var w := Run(LogicOf(cfg), w0, events);
            && (forall i, j | 0 <= i < j < |w.decides| :: w.decides[i] != w.decides[j])
            && (forall a, b
                  | a in w.calls && b in w.calls && a != b && w.calls[a].Authorized? && w.calls[b].Authorized? ::
                  w.calls[a].decision.decisionId != w.calls[b].decision.decisionId)
            && (forall d | d in w.st.decisions ::
                  exists id :: Consumer(w, id, d) &&
                               PassedAll(LogicOf(cfg), w.calls[id].ctx, w.calls[id].head, w.calls[id].grant,
                                         w.calls[id].decision))
  {
    LogicIsSound(cfg);
    ReachableInv(LogicOf(cfg), w0, events);
    SingleUseFrom(LogicOf(cfg), Run(LogicOf(cfg), w0, events));
  }

  lemma SingleUseFrom(logic: GateLogic, w: World)
    requires Inv(logic, w)
    ensures forall i, j | 0 <= i < j < |w.decides| :: w.decides[i] != w.decides[j]
    ensures forall a, b | a in w.calls && b in w.calls && a != b && w.calls[a].Authorized? && w.calls[b].Authorized? ::
              w.calls[a].decision.decisionId != w.calls[b].decision.decisionId
    ensures forall d | d in w.st.decisions ::
              exists id :: Consumer(w, id, d) &&
                           PassedAll(logic, w.calls[id].ctx, w.calls[id].head, w.calls[id].grant, w.calls[id].decision)
  {
    forall i, j | 0 <= i < j < |w.decides| ensures w.decides[i] != w.decides[j] {
      assert KeyOf(w.decides[i]) != KeyOf(w.decides[j]);
    }
    forall d | d in w.st.decisions
      ensures exists id :: Consumer(w, id, d) &&
                           PassedAll(logic, w.calls[id].ctx, w.calls[id].head, w.calls[id].grant, w.calls[id].decision)
    {
      var id :| Consumer(w, id, d);
      assert Justified(logic, w.calls[id]);
    }
  }

  // ----- audit fidelity ---------------------------------------------------------------

  /** The row of an authorization: every identity and outcome the gate's own, only the decision id the service's. */
  function RowWritten(ctx: CallContext, head: VerifiedHead, g: Grant, d: Decision): AuditRow
  {
    AuditRow(ctx.now, ctx.request.requestId, if g.approvalMode.Auto? then "authorized" else "needs_approval",
             Some(g.grantId), true, Some(if g.subject.OsAccount? then "os_account" else "agent_key"), None,
             Some(if g.approvalMode.Auto? then "auto" else "per_call"), Some(d.decisionId),
             Some(head.content.stateVersion), Some(head.digest), Some(ctx.actionDigest))
  }

  lemma SuccessRowIsWritten(ctx: CallContext, head: VerifiedHead, g: Grant, d: Decision)
    ensures SuccessRow(ctx, head, g, d) == RowWritten(ctx, head, g, d)
  {
  }

  /**
   Under every interleaving: the rows are in one-to-one correspondence with the calls that reached
   a verdict, a success row belongs to an authorization, and the decision returned agrees with the
   gate's own derivation on all nine comparison-bound fields.
   */
  lemma AuditFidelity(cfg: GateConfig, w0: World, events: seq<Event>, id: nat)
    requires Initial(w0) && id in Run(LogicOf(cfg), w0, events).calls
    ensures var w := Run(LogicOf(cfg), w0, events);
            var call := w.calls[id];
            && |w.owners| == |w.st.audit|
            && (Verdict(call) <==> id in w.owners)
            && (forall i, j | 0 <= i < |w.owners| && 0 <= j < |w.owners| && w.owners[i] == id && w.owners[j] == id ::
                  i == j)
            && (forall i | 0 <= i < |w.owners| && w.owners[i] == id ::
                  && (IsSuccess(w.st.audit[i]) <==> call.Authorized?)
                  && (call.Authorized? ==> w.st.audit[i] == RowWritten(call.ctx, call.head, call.grant, call.decision)))
            && (call.Authorized? ==> AgreesWithGate(call.decision, call.ctx, call.head, call.grant))
  {
    LogicIsSound(cfg);
    ReachableInv(LogicOf(cfg), w0, events);
    AuditFidelityFrom(LogicOf(cfg), Run(LogicOf(cfg), w0, events), id);
    var call := Run(LogicOf(cfg), w0, events).calls[id];
    if call.Authorized? {
      SuccessRowIsWritten(call.ctx, call.head, call.grant, call.decision);
      ExpectedIsDerived(call.decision, call.ctx, call.head, call.grant);
    }
  }

  /** An authorized call: its grant is in the head it accepted, and its decision is the gate's own derivation. */
  lemma AuthorizedMeans(logic: GateLogic, call: GateCall)
    requires Sound(logic) && Justified(logic, call) && call.Authorized?
    ensures Genuine(logic, call.head) && (call.grant.grantId, call.grant.grantVersion) in call.head.content.active
    ensures AgreesOn(call.decision, ExpectedBindingOf(call.ctx.request, call.grant, call.head, call.ctx.actionDigest))
  {
  }

  lemma RowsFromInv(w: World, id: nat)
    requires OneRowPerVerdict(w) && id in w.calls
    ensures |w.owners| == |w.st.audit|
    ensures Verdict(w.calls[id]) <==> id in w.owners
    ensures forall i, j | 0 <= i < |w.owners| && 0 <= j < |w.owners| && w.owners[i] == id && w.owners[j] == id :: i == j
    ensures forall i | 0 <= i < |w.owners| && w.owners[i] == id ::
              var call := w.calls[id];
              && (IsSuccess(w.st.audit[i]) <==> call.Authorized?)
              && (call.Authorized? ==> w.st.audit[i] == SuccessRow(call.ctx, call.head, call.grant, call.decision))
  {
    forall i | 0 <= i < |w.owners| ensures w.owners[i] in w.calls && Verdict(w.calls[w.owners[i]])
      ensures RowFits(w.calls[w.owners[i]], w.st.audit[i])
    {
      assert OwnerFits(w, i);
    }
  }

  lemma AuditFidelityFrom(logic: GateLogic, w: World, id: nat)
    requires Sound(logic) && Inv(logic, w) && id in w.calls
    ensures |w.owners| == |w.st.audit|
    ensures Verdict(w.calls[id]) <==> id in w.owners
    ensures forall i, j | 0 <= i < |w.owners| && 0 <= j < |w.owners| && w.owners[i] == id && w.owners[j] == id :: i == j
    ensures forall i | 0 <= i < |w.owners| && w.owners[i] == id ::
              var call := w.calls[id];
              && (IsSuccess(w.st.audit[i]) <==> call.Authorized?)
              && (call.Authorized? ==> w.st.audit[i] == SuccessRow(call.ctx, call.head, call.grant, call.decision))
    ensures var call := w.calls[id];
            call.Authorized? ==>
              AgreesOn(call.decision, ExpectedBindingOf(call.ctx.request, call.grant, call.head, call.ctx.actionDigest))
  {
    RowsFromInv(w, id);
    assert Justified(logic, w.calls[id]);
    if w.calls[id].Authorized? {
      AuthorizedMeans(logic, w.calls[id]);
    }
  }
}
