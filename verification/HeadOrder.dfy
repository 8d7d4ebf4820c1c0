/** In which order the head versions of interleaved calls can come. */
module HeadOrder {
  import opened Wrappers
  import opened Jcs
  import opened Service
  import opened Gate
  import opened GateMachine
  import opened GateRuns
  import AuthzState

  // ----- a floor under one call -------------------------------------------------------

  /** The call has not read the mark yet. */
  ghost predicate MarkUnread(w: World, id: nat)
  {
    id in w.calls ==> w.calls[id].Syncing? || w.calls[id].CheckingMark?
  }

  /** The call has read the mark, or accepted, with a head below version `v`. */
  ghost predicate Behind(w: World, id: nat, v: int)
  {
    id in w.calls && (w.calls[id].RaisingMark? || Accepted(w.calls[id])) && w.calls[id].head.content.version < v
  }

  ghost predicate Floor(w: World, id: nat, v: int)
  {
    w.st.mark >= v && !Behind(w, id, v)
  }

  lemma FloorStep(logic: GateLogic, w: World, e: Event, id: nat, v: int)
    requires Floor(w, id, v)
    ensures Floor(Step(logic, w, e), id, v)
  {
  }

  lemma {:induction false} FloorHolds(logic: GateLogic, w: World, events: seq<Event>, id: nat, v: int)
    requires Floor(w, id, v)
    ensures Floor(Run(logic, w, events), id, v)
  {
    if events != [] {
      FloorHolds(logic, w, events[..|events| - 1], id, v);
      FloorStep(logic, Run(logic, w, events[..|events| - 1]), events[|events| - 1], id, v);
    }
  }

  // ----- accepted versions ------------------------------------------------------------

  /** The step makes its call accept a head: it raises the mark, whatever becomes of the call afterwards. */
  predicate Accepts(w: World, e: Event)
  {
    e.Advance? && e.id in w.calls && w.calls[e.id].RaisingMark? && !e.input.raiseFails
  }

  /** Every head the call accepts by its next step has a version of at least `v`. */
  ghost predicate AcceptsAtLeast(w: World, id: nat, v: int)
  {
    forall e | Accepts(w, e) && e.id == id :: w.calls[id].head.content.version >= v
  }

  lemma AcceptRaisesMark(logic: GateLogic, w: World, e: Event)
    requires Accepts(w, e)
    ensures Step(logic, w, e).st.mark >= w.calls[e.id].head.content.version
  {
  }

  /**
   Once a call has accepted a head, every call that reads the mark from then on accepts only heads at
   least as new, whatever the relay delivers, whatever is interleaved, and however either call ends.
   */
  lemma AcceptedVersionsNeverDecrease(logic: GateLogic, w: World, earlier: Event, later: nat, events: seq<Event>)
    requires Accepts(w, earlier) && MarkUnread(Step(logic, w, earlier), later)
    ensures AcceptsAtLeast(Run(logic, Step(logic, w, earlier), events), later, w.calls[earlier.id].head.content.version)
  {
    AcceptRaisesMark(logic, w, earlier);
    FloorHolds(logic, Step(logic, w, earlier), events, later, w.calls[earlier.id].head.content.version);
  }

  /** The call has read the mark and is about to accept a head below `v`. */
  ghost predicate AboutToAccept(w: World, id: nat, v: int)
  {
    id in w.calls && w.calls[id].RaisingMark? && w.calls[id].head.content.version < v
  }

  /**
   The exact condition. Once the mark has reached `v`, every continuation makes a call accept only heads
   from `v` on exactly when that call has not already read the mark with an older one.
   */
  lemma AcceptedOrderIff(logic: GateLogic, w: World, later: nat, v: int)
    requires w.st.mark >= v
    ensures (forall events :: AcceptsAtLeast(Run(logic, w, events), later, v)) <==> !AboutToAccept(w, later, v)
  {
    if AboutToAccept(w, later, v) {
      var e := Advance(later, GoodInput(Unreachable, PeerError));
      assert Accepts(Run(logic, w, []), e) && e.id == later;
      assert !AcceptsAtLeast(Run(logic, w, []), later, v);
    } else {
      forall events ensures AcceptsAtLeast(Run(logic, w, events), later, v) {
        AheadHolds(logic, w, events, later, v);
      }
    }
  }

  lemma AheadStep(logic: GateLogic, w: World, e: Event, id: nat, v: int)
    requires w.st.mark >= v && !AboutToAccept(w, id, v)
    ensures var w' := Step(logic, w, e); w'.st.mark >= v && !AboutToAccept(w', id, v)
  {
  }

  lemma {:induction false} AheadHolds(logic: GateLogic, w: World, events: seq<Event>, id: nat, v: int)
    requires w.st.mark >= v && !AboutToAccept(w, id, v)
    ensures var w' := Run(logic, w, events); w'.st.mark >= v && !AboutToAccept(w', id, v)
  {
    if events != [] {
      AheadHolds(logic, w, events[..|events| - 1], id, v);
      AheadStep(logic, Run(logic, w, events[..|events| - 1]), events[|events| - 1], id, v);
    }
  }

  /** An environment in which local state works. */
  function GoodInput(relay: RelayReply, peer: PeerReply): Input
  {
    Input(relay, false, false, peer, false, 0, ServiceUnreachable, 0, 0, 0, false, false)
  }

  lemma RaiseAccepts(logic: GateLogic, w: World, id: nat, input: Input)
    requires id in w.calls && w.calls[id].RaisingMark? && !input.raiseFails
    requires AfterAccept(logic, w.calls[id].ctx, w.calls[id].head, input.peer).ConsumingRequest?
    ensures var w' := Step(logic, w, Advance(id, input));
            && id in w'.calls && Accepted(w'.calls[id]) && w'.calls[id].head == w.calls[id].head
            && (forall k | k != id && k in w.calls :: k in w'.calls && w'.calls[k] == w.calls[k])
  {
  }

  // ----- a run that regresses ---------------------------------------------------------

  ghost predicate AtStage(w: World, id: nat, call: GateCall)
  {
    id in w.calls && w.calls[id] == call
  }

  /** The relay delivers this head, and a call with this context and input would accept it. */
  ghost predicate Delivers(logic: GateLogic, ctx: CallContext, input: Input, head: AuthzState.VerifiedHead)
  {
    && input.relay.Delivered? && logic.acceptEnvelope(input.relay.env) == Passed(head)
    && !input.markUnreadable && !input.raiseFails && AfterAccept(logic, ctx, head, input.peer).ConsumingRequest?
  }

  lemma Syncs(logic: GateLogic, w: World, id: nat, ctx: CallContext, input: Input, head: AuthzState.VerifiedHead)
    requires AtStage(w, id, Syncing(ctx)) && Delivers(logic, ctx, input, head)
    ensures var w' := Step(logic, w, Advance(id, input));
            w'.st == w.st && w'.calls == w.calls[id := CheckingMark(ctx, head)]
  {
  }

  lemma Checks(logic: GateLogic, w: World, id: nat, ctx: CallContext, input: Input, head: AuthzState.VerifiedHead)
    requires AtStage(w, id, CheckingMark(ctx, head)) && Delivers(logic, ctx, input, head)
    requires w.st.mark <= head.content.version
    ensures var w' := Step(logic, w, Advance(id, input));
            w'.st == w.st && w'.calls == w.calls[id := RaisingMark(ctx, head)]
  {
  }

  lemma Begins(logic: GateLogic, w: World, id: nat, ctx: CallContext)
    requires id !in w.calls
    ensures var w' := Step(logic, w, Start(id, ctx)); w'.st == w.st && w'.calls == w.calls[id := Syncing(ctx)]
  {
  }

  lemma RunMore(logic: GateLogic, w: World, events: seq<Event>, e: Event)
    ensures Run(logic, w, events + [e]) == Step(logic, Run(logic, w, events), e)
  {
    assert (events + [e])[..|events|] == events;
  }

  /** From a start to having read the mark. */
  lemma ReadsMark(logic: GateLogic, w0: World, prefix: seq<Event>, id: nat, ctx: CallContext, input: Input,
                  head: AuthzState.VerifiedHead)
    returns (events: seq<Event>)
    requires var w := Run(logic, w0, prefix); id !in w.calls && w.st.mark <= head.content.version
    requires Delivers(logic, ctx, input, head)
    ensures var w, w' := Run(logic, w0, prefix), Run(logic, w0, events);
            w'.st == w.st && w'.calls == w.calls[id := RaisingMark(ctx, head)]
  {
    var w := Run(logic, w0, prefix);
    Begins(logic, w, id, ctx);
    RunMore(logic, w0, prefix, Start(id, ctx));
    var started := prefix + [Start(id, ctx)];
    Syncs(logic, Run(logic, w0, started), id, ctx, input, head);
    RunMore(logic, w0, started, Advance(id, input));
    var synced := started + [Advance(id, input)];
    Checks(logic, Run(logic, w0, synced), id, ctx, input, head);
    RunMore(logic, w0, synced, Advance(id, input));
    events := synced + [Advance(id, input)];
  }

  /**
   Calls that overlap between reading and raising the mark accept heads out of order: from a gate just
   constructed there is a run after which `b` has accepted a head and `a` has not, and one more step
   makes `a` accept an older one.
   */
  lemma OverlapCanRegress(logic: GateLogic, w0: World, a: nat, ca: CallContext, ia: Input, older: AuthzState.VerifiedHead,
                          b: nat, cb: CallContext, ib: Input, newer: AuthzState.VerifiedHead)
    returns (events: seq<Event>)
    requires Initial(w0) && a != b && Delivers(logic, ca, ia, older) && Delivers(logic, cb, ib, newer)
    requires w0.st.mark <= older.content.version < newer.content.version
    ensures var w, w' := Run(logic, w0, events), Run(logic, w0, events + [Advance(a, ia)]);
            && b in w.calls && Accepted(w.calls[b]) && w.calls[b].head == newer
            && a in w.calls && !Accepted(w.calls[a])
            && a in w'.calls && Accepted(w'.calls[a]) && w'.calls[a].head == older
  {
    var readA := ReadsMark(logic, w0, [], a, ca, ia, older);
    var readB := ReadsMark(logic, w0, readA, b, cb, ib, newer);
    var w2 := Run(logic, w0, readB);
    RaiseAccepts(logic, w2, b, ib);
    RunMore(logic, w0, readB, Advance(b, ib));
    events := readB + [Advance(b, ib)];
    RaiseAccepts(logic, Run(logic, w0, events), a, ia);
    RunMore(logic, w0, events, Advance(a, ia));
  }
}
