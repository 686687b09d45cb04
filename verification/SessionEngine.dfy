// The Session object of loader/remote/session.go: its fields and the sections its methods run atomically. Each method
// is the step it stands for, keeps the session in order, and needs nothing that this order does not already give.
module SessionEngine {
  import opened Text
  import opened Session

  const DEFAULT_DISPATCH_CONCURRENCY: nat := 1024

  class Engine {
    var nextId: nat
    var pending: set<nat>
    var mailbox: map<nat, seq<Frame>>
    var hand: Option<Frame>
    var tasks: map<nat, Task>
    var nextTask: nat
    var held: nat
    const cap: nat
    var peerSet: bool
    var reading: bool
    var closing: Closing
    var notifications: nat
    var calls: map<nat, Call>
    ghost var taken: set<nat>
    ghost var puts: multiset<nat>
    ghost var open: set<nat>
    ghost var asked: map<nat, Frame>
    ghost var answers: map<nat, Frame>

    ghost function S(): Sess
      reads this
    {
      Sess(Client(nextId, calls, pending, mailbox, hand, taken, puts, open),
           Server(tasks, nextTask, held, cap, peerSet, asked, answers), reading, closing, notifications)
    }

    /** NewSession with SetDispatchConcurrency(n) before Start. */
    constructor (n: int)
      ensures S() == Init(if n > 0 then n else DEFAULT_DISPATCH_CONCURRENCY) && SessionOk(S())
    {
      nextId, pending, mailbox, hand := 0, {}, map[], None;
      tasks, nextTask, held, peerSet := map[], 0, 0, false;
      cap := if n > 0 then n else DEFAULT_DISPATCH_CONCURRENCY;
      reading, closing, notifications := true, NotYet, 0;
      calls, taken, puts, open, asked, answers := map[], {}, multiset{}, {}, map[], map[];
      new;
      assert Holding(S().server) == {};
    }

    // ---- Request ----

    /** Request up to its first critical section: the number is fresh and the channel empty. */
    method Number(kind: Kind, body: int) returns (f: Frame)
      requires SessionOk(S())
      modifies this
      ensures SessionOk(S()) && S() == After(old(S()), Begin(kind, body))
      ensures f.id !in old(calls) && f.id !in old(pending) && CallAt(S().client, f.id, Numbered) && mailbox[f.id] == []
    {
      hide ClientOk, QuotaOk, ClosingOk, Enlisted, Sent, Left, Woken, Taken, Delivered, Asked, HandlerDone, GivenBack, Answered, HasRoom;
      NextIsFresh(S().client);
      StepSession(S(), Begin(kind, body));
      nextId := nextId + 1;
      f := Frame(nextId, false, kind, false, body);
      mailbox := mailbox[nextId := []];
      calls := calls[nextId := Call(f, Numbered)];
    }

    /** Request's first critical section: once done is closed nothing more is listed. */
    method Enlist(id: nat) returns (refused: bool)
      requires SessionOk(S()) && CallAt(S().client, id, Numbered)
      modifies this
      ensures SessionOk(S()) && S() == After(old(S()), List(id))
      ensures refused <==> old(closing) != NotYet
      ensures pending == if refused then old(pending) else old(pending) + {id}
    {
      hide ClientOk, QuotaOk, ClosingOk, Begun, Sent, Left, Woken, Taken, Delivered, Asked, HandlerDone, GivenBack, Answered, HasRoom;
      StepSession(S(), List(id));
      refused := closing != NotYet;
      if refused {
        calls := calls[id := calls[id].(stage := Returned(None))];
      } else {
        pending := pending + {id};
        calls := calls[id := calls[id].(stage := Listed)];
      }
    }

    /** Request's send: nothing is written to a closed stream. */
    method WriteRequest(id: nat, ok: bool) returns (out: seq<Frame>)
      requires SessionOk(S()) && CallAt(S().client, id, Listed)
      modifies this
      ensures SessionOk(S()) && S() == After(old(S()), Write(id, ok))
      ensures out == Written(old(S()), Write(id, ok))
    {
      hide ClientOk, QuotaOk, ClosingOk, Begun, Enlisted, Left, Woken, Taken, Delivered, Asked, HandlerDone, GivenBack, Answered, HasRoom;
      StepSession(S(), Write(id, ok));
      var f := calls[id].frame;
      if ok && closing != Cleared && closing != Notified {
        out := [f];
        calls := calls[id := calls[id].(stage := Waiting)];
        open := if f.kind == Dispatched then open + {id} else open;
      } else {
        out := [];
        calls := calls[id := calls[id].(stage := Leaving)];
      }
    }

    /** Request wakes up with its frame: the only one its channel ever gets, and of its own id. */
    method Collect(id: nat) returns (f: Frame)
      requires SessionOk(S()) && CallAt(S().client, id, Waiting) && id in mailbox && mailbox[id] != []
      modifies this
      ensures SessionOk(S()) && S() == After(old(S()), WakeAnswered(id))
      ensures f.id == id && mailbox[id] == [] && id !in pending
    {
      hide ClientOk, QuotaOk, ClosingOk, Begun, Enlisted, Sent, Left, Taken, Delivered, Asked, HandlerDone, GivenBack, Answered, HasRoom;
      ChannelHoldsItsOwn(S().client, id);
      StepSession(S(), WakeAnswered(id));
      f := mailbox[id][0];
      mailbox := mailbox[id := mailbox[id][1..]];
      calls := calls[id := calls[id].(stage := Returned(Some(f)))];
    }

    /** Request wakes up because done is closed. */
    method GiveUp(id: nat)
      requires SessionOk(S()) && CallAt(S().client, id, Waiting) && Done(S())
      modifies this
      ensures SessionOk(S()) && S() == After(old(S()), WakeClosed(id))
    {
      hide ClientOk, QuotaOk, ClosingOk, Begun, Enlisted, Sent, Left, Woken, Taken, Delivered, Asked, HandlerDone, GivenBack, Answered, HasRoom;
      StepSession(S(), WakeClosed(id));
      calls := calls[id := calls[id].(stage := Returned(None))];
    }

    /** Request's context ends. */
    method CancelRequest(id: nat)
      requires SessionOk(S()) && CallAt(S().client, id, Waiting)
      modifies this
      ensures SessionOk(S()) && S() == After(old(S()), Cancel(id))
    {
      hide ClientOk, QuotaOk, ClosingOk, Begun, Enlisted, Sent, Left, Woken, Taken, Delivered, Asked, HandlerDone, GivenBack, Answered, HasRoom;
      StepSession(S(), Cancel(id));
      calls := calls[id := calls[id].(stage := Leaving)];
    }

    /** A failed or cancelled Request deletes its entry: whatever comes later for it is dropped. */
    method Unlist(id: nat)
      requires SessionOk(S()) && CallAt(S().client, id, Leaving)
      modifies this
      ensures SessionOk(S()) && S() == After(old(S()), Leave(id))
      ensures id !in pending
    {
      hide ClientOk, QuotaOk, ClosingOk, Begun, Enlisted, Sent, Woken, Taken, Delivered, Asked, HandlerDone, GivenBack, Answered, HasRoom;
      StepSession(S(), Leave(id));
      pending := pending - {id};
      calls := calls[id := calls[id].(stage := Returned(None))];
    }

    // ---- the receive loop ----

    /** takePending on a reply: the entry is found at most once. */
    method TakePending(f: Frame) returns (found: bool)
      requires SessionOk(S()) && AtRead(S()) && f.reply
      modifies this
      ensures SessionOk(S()) && S() == After(old(S()), ReadReply(f))
      ensures found <==> f.id in old(pending)
      ensures f.id !in pending && (found ==> f.id !in old(taken) && f.id in taken)
    {
      hide ClientOk, QuotaOk, ClosingOk, Begun, Enlisted, Sent, Left, Woken, Delivered, Asked, HandlerDone, GivenBack, Answered, HasRoom;
      TakenOnce(S().client, f.id);
      StepSession(S(), ReadReply(f));
      found := f.id in pending;
      if found {
        pending := pending - {f.id};
        hand := Some(f);
        taken := taken + {f.id};
      }
      open := open - {f.id};
    }

    /** The receive loop puts the reply into the channel: there is always room, so it never blocks here. */
    method Put()
      requires SessionOk(S()) && hand.Some?
      modifies this
      ensures Enabled(old(S()), Deliver)
      ensures SessionOk(S()) && S() == After(old(S()), Deliver)
      ensures hand.None? && old(hand).value.id in old(mailbox) && old(mailbox)[old(hand).value.id] == []
      ensures mailbox[old(hand).value.id] == [old(hand).value]
    {
      hide ClientOk, QuotaOk, ClosingOk, Begun, Enlisted, Sent, Left, Woken, Taken, Asked, HandlerDone, GivenBack, Answered;
      RoomForHand(S());
      StepSession(S(), Deliver);
      var f := hand.value;
      mailbox := mailbox[f.id := mailbox[f.id] + [f]];
      hand := None;
      puts := puts + multiset{f.id};
    }

    /** recvLoop on a request: dispatched kinds go to a goroutine, the others are answered in place. */
    method Receive(f: Frame, body: int, ok: bool) returns (out: seq<Frame>)
      requires SessionOk(S()) && AtRead(S()) && !f.reply && f.id != 0
      modifies this
      ensures SessionOk(S()) && S() == After(old(S()), ReadRequest(f, body, ok))
      ensures out == Written(old(S()), ReadRequest(f, body, ok))
    {
      hide ClientOk, QuotaOk, ClosingOk, Begun, Enlisted, Sent, Left, Woken, Taken, Delivered, HandlerDone, GivenBack, Answered, HasRoom;
      StepSession(S(), ReadRequest(f, body, ok));
      if f.kind == Dispatched {
        out := DispatchAsync(f, body, ok);
      } else {
        asked := asked[f.id := f];
        out := WriteReply(ReplyTo(f, false, body), ok);
      }
    }

    /** dispatchAsync: start a handler within the quota, or say no at once. */
    method DispatchAsync(f: Frame, refusal: int, ok: bool) returns (out: seq<Frame>)
      requires Enabled(S(), ReadRequest(f, refusal, ok)) && f.kind == Dispatched
      modifies this
      ensures S() == After(old(S()), ReadRequest(f, refusal, ok))
      ensures out == Written(old(S()), ReadRequest(f, refusal, ok))
    {
      hide ClientOk, QuotaOk, ClosingOk, Begun, Enlisted, Sent, Left, Woken, Taken, Delivered, HandlerDone, GivenBack, Answered, HasRoom;
      out := [];
      asked := asked[f.id := f];
      if !peerSet {
        out := WriteReply(ReplyTo(f, false, refusal), ok);
      } else if held < cap {
        held := held + 1;
        tasks := tasks[nextTask := Task(f, Running)];
        nextTask := nextTask + 1;
      } else {
        out := WriteReply(ReplyTo(f, true, refusal), ok);
      }
    }

    method WriteReply(reply: Frame, ok: bool) returns (out: seq<Frame>)
      modifies this`answers
      ensures answers == old(answers)[reply.id := reply]
      ensures out == if Goes(S(), ok) then [reply] else []
    {
      answers := answers[reply.id := reply];
      out := if ok && closing != Cleared && closing != Notified then [reply] else [];
    }

    /** recvLoop on a one-way frame: shutdown ends it. */
    method ReceiveOneWay(f: Frame)
      requires SessionOk(S()) && AtRead(S()) && !f.reply && f.id == 0
      modifies this
      ensures SessionOk(S()) && S() == After(old(S()), ReadOneWay(f))
    {
      hide ClientOk, QuotaOk, ClosingOk, Begun, Enlisted, Sent, Left, Woken, Taken, Delivered, Asked, HandlerDone, GivenBack, Answered, HasRoom;
      StepSession(S(), ReadOneWay(f));
      if f.kind == Shutdown {
        reading := false;
      }
    }

    /** The peer is set after the handshake. */
    method InstallPeer()
      requires SessionOk(S())
      modifies this
      ensures SessionOk(S()) && S() == After(old(S()), SetPeer)
    {
      hide ClientOk, QuotaOk, ClosingOk, Begun, Enlisted, Sent, Left, Woken, Taken, Delivered, Asked, HandlerDone, GivenBack, Answered, HasRoom;
      StepSession(S(), SetPeer);
      peerSet := true;
    }

    // ---- the handler's goroutine ----

    /** The handler returns. */
    method FinishHandler(n: nat, body: int)
      requires SessionOk(S()) && TaskAt(S().server, n, Running)
      modifies this
      ensures SessionOk(S()) && S() == After(old(S()), Finish(n, body))
      ensures n in Holding(S().server) && held == old(held)
    {
      hide ClientOk, QuotaOk, ClosingOk, Begun, Enlisted, Sent, Left, Woken, Taken, Delivered, Asked, GivenBack, Answered, HasRoom;
      StepSession(S(), Finish(n, body));
      tasks := tasks[n := tasks[n].(work := Finished(body))];
    }

    /** Quota back first: a finished handler always has some to give, so it never blocks here. */
    method GiveBack(n: nat)
      requires SessionOk(S()) && n in tasks && tasks[n].work.Finished?
      modifies this
      ensures Enabled(old(S()), Release(n))
      ensures SessionOk(S()) && S() == After(old(S()), Release(n))
      ensures held + 1 == old(held) == |Holding(old(S()).server)|
    {
      hide ClientOk, QuotaOk, ClosingOk, Begun, Enlisted, Sent, Left, Woken, Taken, Delivered, Asked, HandlerDone, Answered, HasRoom;
      QuotaToGiveBack(S(), n);
      QuotaIsHolding(S());
      StepSession(S(), Release(n));
      held := held - 1;
      tasks := tasks[n := tasks[n].(work := Released(tasks[n].work.body))];
    }

    /** Reply second: when it goes out its quota has been given back. */
    method Respond(n: nat, ok: bool) returns (out: seq<Frame>)
      requires SessionOk(S()) && ReplyDue(S().server, n)
      modifies this
      ensures SessionOk(S()) && S() == After(old(S()), Answer(n, ok))
      ensures out == Written(old(S()), Answer(n, ok))
      ensures n !in tasks && n !in Holding(old(S()).server)
    {
      hide ClientOk, QuotaOk, ClosingOk, Begun, Enlisted, Sent, Left, Woken, Taken, Delivered, Asked, HandlerDone, GivenBack, HasRoom;
      StepSession(S(), Answer(n, ok));
      out := WriteReply(ReplyTo(tasks[n].request, false, tasks[n].work.body), ok);
      tasks := tasks - {n};
    }

    // ---- closeWith ----

    /** closeOnce: the first caller closes done and goes on, the others return. */
    method CloseDone() returns (first: bool)
      requires SessionOk(S())
      modifies this
      ensures SessionOk(S()) && first == (old(closing) == NotYet) && Done(S())
      ensures S() == if first then After(old(S()), Signal) else old(S())
    {
      hide ClientOk, QuotaOk, ClosingOk, Begun, Enlisted, Sent, Left, Woken, Taken, Delivered, Asked, HandlerDone, GivenBack, Answered, HasRoom;
      first := closing == NotYet;
      if first {
        StepSession(S(), Signal);
          closing := Signalled;
      }
    }

    /** closeWith's critical section: every entry is deleted, then the stream is closed. */
    method ClearPending()
      requires SessionOk(S()) && closing == Signalled
      modifies this
      ensures SessionOk(S()) && S() == After(old(S()), Clear)
    {
      hide ClientOk, QuotaOk, ClosingOk, Begun, Enlisted, Sent, Left, Woken, Taken, Delivered, Asked, HandlerDone, GivenBack, Answered, HasRoom;
      StepSession(S(), Clear);
      while pending != {}
        invariant S() == old(S()).(client := old(S()).client.(pending := pending))
        decreases |pending|
      {
        var id :| id in pending;
        pending := pending - {id};
      }
      closing := Cleared;
    }

    /** The callback, once. */
    method NotifyClosed()
      requires SessionOk(S()) && closing == Cleared
      modifies this
      ensures SessionOk(S()) && S() == After(old(S()), Notify)
      ensures old(notifications) == 0 && notifications == 1 && pending == {}
    {
      hide ClientOk, QuotaOk, ClosingOk, Begun, Enlisted, Sent, Left, Woken, Taken, Delivered, Asked, HandlerDone, GivenBack, Answered, HasRoom;
      StepSession(S(), Notify);
      ClosedFacts(S());
      closing, notifications := Notified, notifications + 1;
    }
  }

  lemma QuotaIsHolding(s: Sess)
    requires QuotaOk(s.server)
    ensures s.server.held == |Holding(s.server)|
  {
  }

  lemma TakenOnce(c: Client, id: nat)
    requires ClientOk(c)
    ensures id in c.pending ==> id !in c.taken
  {
  }

  lemma ClosedFacts(s: Sess)
    requires ClosingOk(s) && s.closing == Cleared
    ensures s.notifications == 0 && s.client.pending == {}
  {
  }
}
