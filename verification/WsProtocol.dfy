// src/ws_api.rs: requests, the reader and the reconnect loop sharing the pending
// table and the sender slot, as a state machine over their atomic sections.
module WsProtocol {
  import opened Models

  /** A message from the exchange; `id` is None when it names no request of ours. */
  datatype Response = Response(id: Option<nat>, body: nat)

  datatype Phase =
    | Numbered                    // has an id, not yet in the pending table
    | Registered                  // in the table, waiting for the sender slot's mutex
    | Sent                        // holds the mutex, its payload is on the channel
    | Expired                     // five seconds are over, its entry not yet removed
    | Done(reply: Option<Response>)

  datatype Link = Reading | Dropping | Clearing | Reconnecting

  datatype State = State(
    counter: nat,
    pending: set<nat>,            // ids with an entry, each holding the sender of its oneshot
    holder: Option<nat>,          // the request that holds the slot's mutex
    channel: bool,                // the slot holds a sender
    phase: map<nat, Phase>,
    mail: map<nat, Response>,     // what the oneshot of a request has been given
    orphans: set<nat>,            // ids whose sender was dropped by `pending.clear()`
    link: Link
  )

  datatype Step =
    | TakeId
    | Insert(id: nat)
    | Send(id: nat)
    | Refuse(id: nat)
    | Deliver(r: Response)
    | Receive(id: nat)
    | Timeout(id: nat)
    | Cleanup(id: nat)
    | GiveUp(id: nat)
    | Disconnect
    | EmptySlot
    | Clear
    | FillSlot

  predicate In(s: State, id: nat, p: Phase) { id in s.phase && s.phase[id] == p }

  predicate Enabled(s: State, step: Step) {
    match step
    case TakeId => true
    case Insert(id) => In(s, id, Numbered)
    case Send(id) => In(s, id, Registered) && s.holder == None && s.channel
    // the slot is empty, or the writer task behind it has ended
    case Refuse(id) => In(s, id, Registered) && s.holder == None
    case Deliver(_) => s.link == Reading
    case Receive(id) => In(s, id, Sent) && id in s.mail
    case Timeout(id) => In(s, id, Sent) && id !in s.mail
    case Cleanup(id) => In(s, id, Expired)
    // the sender is gone, so the wait ends at once with an error
    case GiveUp(id) => In(s, id, Sent) && id !in s.mail && id in s.orphans
    case Disconnect => s.link == Reading
    case EmptySlot => s.link == Dropping && s.holder == None
    case Clear => s.link == Clearing
    case FillSlot => s.link == Reconnecting && s.holder == None
  }

  function Finish(s: State, id: nat, reply: Option<Response>): State {
    s.(phase := s.phase[id := Done(reply)], pending := s.pending - {id}, holder := None)
  }

  function Next(s: State, step: Step): State
    requires Enabled(s, step)
  {
    match step
    case TakeId => s.(counter := s.counter + 1, phase := s.phase[s.counter := Numbered])
    case Insert(id) => s.(pending := s.pending + {id}, phase := s.phase[id := Registered])
    case Send(id) => s.(holder := Some(id), phase := s.phase[id := Sent])
    case Refuse(id) => s.(phase := s.phase[id := Done(None)], pending := s.pending - {id})
    case Deliver(r) =>
      if r.id.Some? && r.id.value in s.pending
      then s.(pending := s.pending - {r.id.value},
              mail := if In(s, r.id.value, Expired) then s.mail else s.mail[r.id.value := r])
      else s
    // the reader has already taken the entry out of the table
    case Receive(id) => s.(phase := s.phase[id := Done(Some(s.mail[id]))], holder := None)
    case Timeout(id) => s.(phase := s.phase[id := Expired])
    case Cleanup(id) => Finish(s, id, None)
    case GiveUp(id) => Finish(s, id, None)
    case Disconnect => s.(link := Dropping)
    case EmptySlot => s.(channel := false, link := Clearing)
    case Clear => s.(pending := {}, orphans := s.orphans + s.pending, link := Reconnecting)
    case FillSlot => s.(channel := true, link := Reading)
  }

  function Start(): State { State(1, {}, None, false, map[], map[], {}, Reconnecting) }

  function After(steps: seq<Step>): Option<State> {
    if |steps| == 0 then Some(Start())
    else
      var step := steps[|steps| - 1];
      match After(steps[..|steps| - 1])
      case Some(s) => if Enabled(s, step) then Some(Next(s, step)) else None
      case None => None
  }

  // ------------------------------------------------------------- invariant

  predicate InFlight(s: State, id: nat) { In(s, id, Sent) || In(s, id, Expired) }

  /** What one id may look like. */
  predicate IdInv(s: State, id: nat) {
    && (id in s.phase ==> id < s.counter)
    // who is in the table, and where its waiter's answer comes from
    && (id in s.pending ==> (In(s, id, Registered) || InFlight(s, id)) && id !in s.mail && id !in s.orphans)
    && (In(s, id, Registered) || In(s, id, Sent) ==> id in s.pending || id in s.mail || id in s.orphans)
    // who holds the mutex
    && (InFlight(s, id) <==> s.holder == Some(id))
    // what has been delivered or dropped
    && (id in s.mail ==> s.mail[id].id == Some(id) && id in s.phase && s.phase[id] != Numbered && id !in s.orphans)
    && (id in s.orphans ==> id in s.phase && s.phase[id] != Numbered)
    && (id in s.phase && s.phase[id].Done? && s.phase[id].reply.Some? ==>
          id in s.mail && s.phase[id].reply == Some(s.mail[id]))
  }

  ghost predicate Inv(s: State) {
    && (forall id :: IdInv(s, id))
    && (s.link == Clearing || s.link == Reconnecting ==> !s.channel && s.holder == None)
  }

  lemma IdStep(s: State, step: Step, id: nat)
    requires Inv(s) && Enabled(s, step)
    ensures IdInv(Next(s, step), id)
  {
    assert IdInv(s, id);
    assert IdInv(s, s.counter);
    match step
    case Insert(x) => assert IdInv(s, x);
    case Send(x) => assert IdInv(s, x);
    case Refuse(x) => assert IdInv(s, x);
    case Receive(x) => assert IdInv(s, x);
    case Timeout(x) => assert IdInv(s, x);
    case Cleanup(x) => assert IdInv(s, x);
    case GiveUp(x) => assert IdInv(s, x);
    case _ =>
  }

  lemma StepKeepsInv(s: State, step: Step)
    requires Inv(s) && Enabled(s, step)
    ensures Inv(Next(s, step))
  {
    forall id ensures IdInv(Next(s, step), id) {
      IdStep(s, step, id);
    }
    hide IdInv;
    assert s.link == Clearing || s.link == Reconnecting ==> !s.channel && s.holder == None;
  }

  lemma {:induction false} InvHolds(steps: seq<Step>)
    requires After(steps).Some?
    ensures Inv(After(steps).value)
  {
    if |steps| > 0 {
      var p := steps[..|steps| - 1];
      InvHolds(p);
      hide Inv;
      StepKeepsInv(After(p).value, steps[|steps| - 1]);
    }
  }

  // -------------------------------------------------------------- theorems

  /** No insertion ever overwrites a pending entry. */
  lemma IdsAreFresh(steps: seq<Step>, id: nat)
    requires After(steps).Some? && Enabled(After(steps).value, Insert(id))
    ensures id !in After(steps).value.pending
  {
    InvHolds(steps);
    assert IdInv(After(steps).value, id);
  }

  /** The mutex is held across the wait, so at most one request is sent and unanswered. */
  lemma OneInFlight(steps: seq<Step>, id: nat, other: nat)
    requires After(steps).Some? && InFlight(After(steps).value, id) && InFlight(After(steps).value, other)
    ensures id == other
  {
    InvHolds(steps);
    assert IdInv(After(steps).value, id) && IdInv(After(steps).value, other);
  }

  /** A request is answered with a response that carries its own id, or with an error. */
  lemma AnswersMatch(steps: seq<Step>, id: nat)
    requires After(steps).Some? && id in After(steps).value.phase
    requires var p := After(steps).value.phase[id]; p.Done? && p.reply.Some?
    ensures After(steps).value.phase[id].reply.value.id == Some(id)
  {
    InvHolds(steps);
    assert IdInv(After(steps).value, id);
  }

  /** Whatever happens next, a delivered response is never replaced and a finished
      request never changes its answer: each waiter is answered at most once. */
  lemma AnswersAreFinal(steps: seq<Step>, step: Step, id: nat)
    requires After(steps).Some? && Enabled(After(steps).value, step)
    ensures var s, t := After(steps).value, Next(After(steps).value, step);
      && (id in s.mail ==> id in t.mail && t.mail[id] == s.mail[id])
      && (id in s.phase && s.phase[id].Done? ==> id in t.phase && t.phase[id] == s.phase[id])
  {
    InvHolds(steps);
    var s := After(steps).value;
    assert IdInv(s, id) && IdInv(s, s.counter);
  }

  /** A finished request leaves no entry behind. */
  lemma FinishedLeaveNothing(steps: seq<Step>, id: nat)
    requires After(steps).Some? && id in After(steps).value.phase && After(steps).value.phase[id].Done?
    ensures id !in After(steps).value.pending
  {
    InvHolds(steps);
    assert IdInv(After(steps).value, id);
  }

  /** Clearing the table after a disconnect drops only waiters whose request has
      not been sent; no request is sent and waiting at that moment. */
  lemma ClearDropsNoSentRequest(steps: seq<Step>, id: nat)
    requires After(steps).Some? && Enabled(After(steps).value, Clear)
    ensures !InFlight(After(steps).value, id)
    ensures id in After(steps).value.pending ==> In(After(steps).value, id, Registered)
  {
    InvHolds(steps);
    assert IdInv(After(steps).value, id);
  }

  /** A sent and unanswered request can still be answered exactly when its waiter
      was not dropped by a clear before it got the mutex. */
  lemma SentWaiterLives(steps: seq<Step>, id: nat)
    requires After(steps).Some? && In(After(steps).value, id, Sent) && id !in After(steps).value.mail
    ensures id in After(steps).value.pending <==> id !in After(steps).value.orphans
  {
    InvHolds(steps);
    assert IdInv(After(steps).value, id);
  }

  /** The table was cleared after the request had been inserted and before it was sent. */
  ghost predicate ClearedBefore(steps: seq<Step>, id: nat) {
    exists i: nat, k: nat :: ClearedAt(steps, id, i, k)
  }

  predicate ClearedAt(steps: seq<Step>, id: nat, i: nat, k: nat) {
    i < k < |steps| && steps[i] == Insert(id) && steps[k] == Clear && Send(id) !in steps[..k]
  }

  lemma ClearedBeforeStep(steps: seq<Step>, step: Step, id: nat)
    ensures ClearedBefore(steps + [step], id)
       <==> ClearedBefore(steps, id) || (step == Clear && Insert(id) in steps && Send(id) !in steps)
  {
    var more := steps + [step];
    assert more[..|steps|] == steps;
    if ClearedBefore(steps, id) {
      var i: nat, k: nat :| ClearedAt(steps, id, i, k);
      assert more[..k] == steps[..k];
      assert ClearedAt(more, id, i, k);
    } else if step == Clear && Insert(id) in steps && Send(id) !in steps {
      var i :| 0 <= i < |steps| && steps[i] == Insert(id);
      assert ClearedAt(more, id, i, |steps|);
    } else if ClearedBefore(more, id) {
      var i: nat, k: nat :| ClearedAt(more, id, i, k);
      assert more[..k] == steps[..k];
      if k < |steps| { assert ClearedAt(steps, id, i, k); }
    }
  }

  /** What a run tells about a request: whether it was inserted and sent, and, while it
      waits unanswered, whether its waiter was dropped. */
  ghost predicate Told(s: State, steps: seq<Step>, id: nat) {
    && (Insert(id) in steps <==> id in s.phase && s.phase[id] != Numbered)
    && (id !in s.phase || In(s, id, Numbered) || In(s, id, Registered) ==> Send(id) !in steps)
    && (InFlight(s, id) ==> Send(id) in steps)
    && ((In(s, id, Registered) || In(s, id, Sent)) && id !in s.mail ==> (id in s.orphans <==> ClearedBefore(steps, id)))
  }

  lemma {:induction false} RunTells(steps: seq<Step>, id: nat)
    requires After(steps).Some?
    ensures Told(After(steps).value, steps, id)
  {
    if |steps| > 0 {
      var p, step := steps[..|steps| - 1], steps[|steps| - 1];
      RunTells(p, id);
      InvHolds(p);
      assert steps == p + [step];
      var s := After(p).value;
      hide After;
      StepTells(s, p, step, id);
    }
  }

  lemma StepTells(s: State, steps: seq<Step>, step: Step, id: nat)
    requires Inv(s) && Enabled(s, step) && Told(s, steps, id)
    ensures Told(Next(s, step), steps + [step], id)
  {
    assert IdInv(s, id) && IdInv(s, s.counter);
    ClearedBeforeStep(steps, step, id);
    hide ClearedBefore;
    assert s.link == Clearing ==> s.holder == None;
    hide Inv;
    var t, more := Next(s, step), steps + [step];
    assert Insert(id) in more <==> Insert(id) in steps || step == Insert(id);
    assert Send(id) in more <==> Send(id) in steps || step == Send(id);
    assert Insert(id) in more <==> id in t.phase && t.phase[id] != Numbered;
    assert id !in t.phase || In(t, id, Numbered) || In(t, id, Registered) ==> Send(id) !in more;
    assert InFlight(t, id) ==> Send(id) in more;
  }

  /** So on the run itself: a request that is sent and unanswered can still be answered
      exactly if the table was not cleared between its insertion and its sending. */
  lemma SentWaiterLivesIff(steps: seq<Step>, id: nat)
    requires After(steps).Some? && In(After(steps).value, id, Sent) && id !in After(steps).value.mail
    ensures Insert(id) in steps && Send(id) in steps
    ensures id in After(steps).value.pending <==> !ClearedBefore(steps, id)
  {
    SentWaiterLives(steps, id);
    RunTells(steps, id);
  }

  // ------------------------------------------------- who gets which answer

  /** At position `k` of the run the reader is handed `r`, and finds an entry for it. */
  predicate DeliveredAt(steps: seq<Step>, id: nat, k: nat, r: Response) {
    && k < |steps| && steps[k] == Deliver(r) && r.id == Some(id)
    && After(steps[..k]).Some? && id in After(steps[..k]).value.pending
  }

  /** `r` is the first response with this id that finds the request's entry. */
  ghost predicate Answer(steps: seq<Step>, id: nat, r: Response) {
    exists k: nat :: DeliveredAt(steps, id, k, r) && NoneBefore(steps, id, k)
  }

  ghost predicate NoneBefore(steps: seq<Step>, id: nat, k: nat) {
    forall j: nat, q :: j < k ==> !DeliveredAt(steps, id, j, q)
  }

  lemma AnswerIsUnique(steps: seq<Step>, id: nat, r: Response, q: Response)
    requires Answer(steps, id, r) && Answer(steps, id, q)
    ensures r == q
  {
    var k: nat :| DeliveredAt(steps, id, k, r) && NoneBefore(steps, id, k);
    var j: nat :| DeliveredAt(steps, id, j, q) && NoneBefore(steps, id, j);
    assert j < k ==> !DeliveredAt(steps, id, j, q);
    assert k < j ==> !DeliveredAt(steps, id, k, r);
  }

  lemma DeliveredEarlier(steps: seq<Step>, step: Step, id: nat, k: nat, r: Response)
    requires k < |steps|
    ensures DeliveredAt(steps + [step], id, k, r) <==> DeliveredAt(steps, id, k, r)
  {
    assert (steps + [step])[..k] == steps[..k];
  }

  lemma AnswerStays(steps: seq<Step>, step: Step, id: nat, r: Response)
    requires Answer(steps, id, r)
    ensures Answer(steps + [step], id, r)
  {
    var k: nat :| DeliveredAt(steps, id, k, r) && NoneBefore(steps, id, k);
    DeliveredEarlier(steps, step, id, k, r);
    forall j: nat, q | j < k ensures !DeliveredAt(steps + [step], id, j, q) {
      DeliveredEarlier(steps, step, id, j, q);
    }
  }

  /** Nothing has been delivered to an entry that is there. */
  ghost predicate Undelivered(steps: seq<Step>, id: nat) { NoneBefore(steps, id, |steps|) }

  lemma UndeliveredStep(steps: seq<Step>, step: Step, id: nat)
    requires After(steps).Some? && Undelivered(steps, id)
    requires !(step.Deliver? && step.r.id == Some(id) && id in After(steps).value.pending)
    ensures Undelivered(steps + [step], id)
  {
    var more := steps + [step];
    assert more[..|steps|] == steps;
    forall j: nat, q | j < |more| ensures !DeliveredAt(more, id, j, q) {
      if j < |steps| { DeliveredEarlier(steps, step, id, j, q); }
    }
  }

  lemma FirstDelivery(steps: seq<Step>, r: Response, id: nat)
    requires After(steps).Some? && Undelivered(steps, id) && r.id == Some(id) && id in After(steps).value.pending
    ensures Answer(steps + [Deliver(r)], id, r)
  {
    var more := steps + [Deliver(r)];
    assert more[..|steps|] == steps;
    assert DeliveredAt(more, id, |steps|, r);
    forall j: nat, q | j < |steps| ensures !DeliveredAt(more, id, j, q) {
      DeliveredEarlier(steps, Deliver(r), id, j, q);
    }
  }

  /** The run ends this request without an answer. */
  predicate Failed(steps: seq<Step>, id: nat) { Refuse(id) in steps || Cleanup(id) in steps || GiveUp(id) in steps }

  /** What a run tells about the answer of a request. */
  ghost predicate ToldAnswer(s: State, steps: seq<Step>, id: nat) {
    && (id in s.mail ==> Answer(steps, id, s.mail[id]))
    && (id !in s.phase || In(s, id, Numbered) || id in s.pending ==> Undelivered(steps, id))
    && (Receive(id) in steps <==> id in s.phase && s.phase[id].Done? && s.phase[id].reply.Some?)
    && (Failed(steps, id) <==> In(s, id, Done(None)))
  }

  lemma {:induction false} RunTellsAnswer(steps: seq<Step>, id: nat)
    requires After(steps).Some?
    ensures ToldAnswer(After(steps).value, steps, id)
  {
    if |steps| > 0 {
      var p, step := steps[..|steps| - 1], steps[|steps| - 1];
      RunTellsAnswer(p, id);
      InvHolds(p);
      assert steps == p + [step];
      StepTellsAnswer(p, step, id);
    }
  }

  lemma StepTellsAnswer(steps: seq<Step>, step: Step, id: nat)
    requires After(steps).Some? && Inv(After(steps).value) && Enabled(After(steps).value, step)
    requires ToldAnswer(After(steps).value, steps, id)
    ensures ToldAnswer(Next(After(steps).value, step), steps + [step], id)
  {
    var s := After(steps).value;
    var t, more := Next(s, step), steps + [step];
    MailTold(steps, step, id);
    EntryTold(steps, step, id);
    hide Answer;
    hide Undelivered;
    hide After;
    EndTold(s, steps, step, id);
  }

  lemma MailTold(steps: seq<Step>, step: Step, id: nat)
    requires After(steps).Some? && Inv(After(steps).value) && Enabled(After(steps).value, step)
    requires ToldAnswer(After(steps).value, steps, id)
    ensures var t := Next(After(steps).value, step); id in t.mail ==> Answer(steps + [step], id, t.mail[id])
  {
    var s := After(steps).value;
    assert IdInv(s, id);
    if id in s.mail {
      AnswerStays(steps, step, id, s.mail[id]);
    } else if step.Deliver? && step.r.id == Some(id) && id in s.pending {
      FirstDelivery(steps, step.r, id);
    }
    hide Answer;
    hide Undelivered;
    hide After;
    hide Inv;
  }

  lemma EntryTold(steps: seq<Step>, step: Step, id: nat)
    requires After(steps).Some? && Inv(After(steps).value) && Enabled(After(steps).value, step)
    requires ToldAnswer(After(steps).value, steps, id)
    ensures var t := Next(After(steps).value, step);
      id !in t.phase || In(t, id, Numbered) || id in t.pending ==> Undelivered(steps + [step], id)
  {
    var s := After(steps).value;
    assert IdInv(s, id) && IdInv(s, s.counter);
    if Undelivered(steps, id) && !(step.Deliver? && step.r.id == Some(id) && id in s.pending) {
      UndeliveredStep(steps, step, id);
    }
    hide Answer;
    hide Undelivered;
    hide After;
    hide Inv;
  }

  lemma EndTold(s: State, steps: seq<Step>, step: Step, id: nat)
    requires Inv(s) && Enabled(s, step) && ToldAnswer(s, steps, id)
    ensures var t, more := Next(s, step), steps + [step];
      && (Receive(id) in more <==> id in t.phase && t.phase[id].Done? && t.phase[id].reply.Some?)
      && (Failed(more, id) <==> In(t, id, Done(None)))
  {
    assert IdInv(s, id) && IdInv(s, s.counter);
    hide Inv;
    hide Answer;
    hide Undelivered;
    var more := steps + [step];
    assert Receive(id) in more <==> Receive(id) in steps || step == Receive(id);
    assert Failed(more, id) <==> Failed(steps, id) || step == Refuse(id) || step == Cleanup(id) || step == GiveUp(id);
  }

  /** Over every run: a request is finished with response `r` exactly if its wait ended by
      receiving and `r` is the first response with its id that found its entry; it is
      finished without one exactly if it was refused, timed out or given up. */
  lemma AnsweredIff(steps: seq<Step>, id: nat, r: Response)
    requires After(steps).Some?
    ensures In(After(steps).value, id, Done(Some(r))) <==> Receive(id) in steps && Answer(steps, id, r)
    ensures In(After(steps).value, id, Done(None)) <==> Failed(steps, id)
  {
    var s := After(steps).value;
    RunTellsAnswer(steps, id);
    InvHolds(steps);
    assert IdInv(s, id);
    hide Answer;
    hide After;
    hide Inv;
    if id in s.mail && Answer(steps, id, r) { AnswerIsUnique(steps, id, r, s.mail[id]); }
  }

  /** A response delivered to a request that is waiting for it does reach it: receiving is
      possible, and whatever else happens the request keeps waiting until it receives. */
  lemma DeliveredReaches(steps: seq<Step>, step: Step, id: nat)
    requires After(steps).Some? && In(After(steps).value, id, Sent) && id in After(steps).value.mail
    ensures Enabled(After(steps).value, Receive(id))
    ensures Enabled(After(steps).value, step) ==>
      In(Next(After(steps).value, step), id, if step == Receive(id) then Done(Some(After(steps).value.mail[id])) else Sent)
  {
    InvHolds(steps);
    var s := After(steps).value;
    assert IdInv(s, id) && IdInv(s, s.counter);
  }

  /** A request that is sent never holds the mutex for ever: if its answer is there it can
      finish with it in one step, and if not it can time out, be taken off the table and
      fail in two, and the next request can go ahead. */
  lemma WaitEnds(steps: seq<Step>, id: nat) returns (more: seq<Step>)
    requires After(steps).Some? && In(After(steps).value, id, Sent)
    ensures more == (if id in After(steps).value.mail then [Receive(id)] else [Timeout(id), Cleanup(id)])
    ensures After(steps + more).Some? && After(steps + more).value.holder == None
    ensures In(After(steps + more).value, id, Done(if id in After(steps).value.mail then Some(After(steps).value.mail[id]) else None))
    ensures id !in After(steps + more).value.pending
  {
    var s := After(steps).value;
    InvHolds(steps);
    assert IdInv(s, id);
    hide After;
    hide Inv;
    if id in s.mail {
      more := [Receive(id)];
      var whole := Extend(steps, s, Receive(id));
    } else {
      more := [Timeout(id), Cleanup(id)];
      var waited := Extend(steps, s, Timeout(id));
      var whole := Extend(waited, Next(s, Timeout(id)), Cleanup(id));
      assert whole == steps + more;
    }
  }

  /** The good case, from the first step on: the request with this answer exists. */
  lemma AnswerArrives(body: nat) returns (steps: seq<Step>)
    ensures After(steps).Some? && In(After(steps).value, 1, Done(Some(Response(Some(1), body))))
  {
    steps := Registers();
    hide After;
    var s, r := Waiting(), Response(Some(1), body);
    steps := Extend(steps, s, Send(1));
    s := Next(s, Send(1));
    steps := Extend(steps, s, Deliver(r));
    s := Next(s, Deliver(r));
    steps := Extend(steps, s, Receive(1));
  }

  /** Such a request exists: it registers, the connection drops and the table is
      cleared, the connection is back, and only then does it get the mutex and send
      an order whose answer nobody can receive. */
  lemma OrphanedSend() returns (steps: seq<Step>)
    ensures After(steps).Some? && In(After(steps).value, 1, Sent)
    ensures 1 !in After(steps).value.pending && 1 !in After(steps).value.mail
    ensures Enabled(After(steps).value, GiveUp(1))
  {
    steps := RegisteredThenCleared();
    hide After;
    var s := Cleared();
    steps := Extend(steps, s, FillSlot);
    s := Next(s, FillSlot);
    steps := Extend(steps, s, Send(1));
  }

  /** Request 1 is registered, its waiter dropped, the connection still down. */
  function Cleared(): State { State(2, {}, None, false, map[1 := Registered], map[], {1}, Reconnecting) }

  function Up(): State { State(1, {}, None, true, map[], map[], {}, Reading) }

  function Holding(): State { State(2, {}, None, true, map[1 := Numbered], map[], {}, Reading) }

  /** Request 1 is registered on a connection that is up. */
  function Waiting(): State { State(2, {1}, None, true, map[1 := Registered], map[], {}, Reading) }

  lemma FirstSteps()
    ensures Enabled(Start(), FillSlot) && Next(Start(), FillSlot) == Up()
    ensures Enabled(Up(), TakeId) && Next(Up(), TakeId) == Holding()
    ensures Enabled(Holding(), Insert(1)) && Next(Holding(), Insert(1)) == Waiting()
  {
  }

  lemma Registers() returns (steps: seq<Step>)
    ensures After(steps) == Some(Waiting())
  {
    assert After([]) == Some(Start());
    FirstSteps();
    hide After;
    hide Enabled;
    hide Next;
    steps := Extend([], Start(), FillSlot);
    steps := Extend(steps, Up(), TakeId);
    steps := Extend(steps, Holding(), Insert(1));
  }

  lemma RegisteredThenCleared() returns (steps: seq<Step>)
    ensures After(steps) == Some(Cleared())
  {
    steps := Registers();
    hide After;
    var s := Waiting();
    steps := Extend(steps, s, Disconnect);
    s := Next(s, Disconnect);
    steps := Extend(steps, s, EmptySlot);
    s := Next(s, EmptySlot);
    steps := Extend(steps, s, Clear);
    assert Next(s, Clear) == Cleared();
  }

  lemma Extend(steps: seq<Step>, s: State, step: Step) returns (more: seq<Step>)
    requires After(steps) == Some(s) && Enabled(s, step)
    ensures more == steps + [step] && After(more) == Some(Next(s, step))
  {
    more := steps + [step];
    assert more[..|steps|] == steps;
  }
}
