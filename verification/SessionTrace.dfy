// Where a returned frame comes from, told by the steps of a run: the request was begun by the caller, its frame was
// read by the peer, and the reply carries what the peer's handler finished with, or what the read answered at once.
module SessionTrace {
  import opened Text
  import opened Session
  import opened SessionPair

  // ---- one side of a run ----

  /** The states of one session and its own steps; None where the other side moves. */
  ghost predicate IsTrace(states: seq<Sess>, acts: seq<Option<Event>>) {
    && |states| == |acts| + 1 && states[0] == Init(states[0].server.cap)
    && forall i :: 0 <= i < |acts| ==>
         if acts[i].Some? then Enabled(states[i], acts[i].value) && states[i + 1] == After(states[i], acts[i].value)
         else states[i + 1] == states[i]
  }

  /** No request number is read twice. */
  ghost predicate FreshReads(states: seq<Sess>, acts: seq<Option<Event>>)
    requires |states| == |acts| + 1
  {
    forall i :: 0 <= i < |acts| && acts[i].Some? && acts[i].value.ReadRequest? ==> acts[i].value.f.id !in states[i].server.asked
  }

  // ---- what happened ----

  /** Step b is a Request call that made this frame, under the next free number. */
  ghost predicate BegunAt(states: seq<Sess>, acts: seq<Option<Event>>, b: nat, frame: Frame)
    requires |states| == |acts| + 1
  {
    && b < |acts| && acts[b] == Some(Begin(frame.kind, frame.body))
    && frame == Frame(states[b].client.nextId + 1, false, frame.kind, false, frame.body)
  }

  /** Step a reads this request. */
  ghost predicate ReadAt(acts: seq<Option<Event>>, a: nat, frame: Frame) {
    a < |acts| && acts[a].Some? && acts[a].value.ReadRequest? && acts[a].value.f == frame
  }

  /** The request goes to a handler: a peer is set and quota is left. */
  predicate GoesToHandler(s: Sess, frame: Frame) {
    frame.kind == Dispatched && s.server.peerSet && s.server.held < s.server.cap
  }

  /** Step a reads the request and answers it in place; it says busy if a set peer is out of quota. */
  ghost predicate AnsweredInPlace(states: seq<Sess>, acts: seq<Option<Event>>, a: nat, frame: Frame, reply: Frame)
    requires |states| == |acts| + 1
  {
    && ReadAt(acts, a, frame) && !GoesToHandler(states[a], frame)
    && reply == Frame(frame.id, true, OtherKind, frame.kind == Dispatched && states[a].server.peerSet, acts[a].value.body)
  }

  /** Step a reads the request and starts handler t. */
  ghost predicate StartedAt(states: seq<Sess>, acts: seq<Option<Event>>, a: nat, frame: Frame, t: nat)
    requires |states| == |acts| + 1
  {
    ReadAt(acts, a, frame) && GoesToHandler(states[a], frame) && states[a].server.nextTask == t
  }

  /** Handler t finishes with this body in step d. */
  ghost predicate FinishedAt(acts: seq<Option<Event>>, d: nat, t: nat, body: int) {
    d < |acts| && acts[d] == Some(Finish(t, body))
  }

  /** Step a starts a handler for the request, step d is its end and the reply carries what it ended with. */
  ghost predicate AnsweredByHandler(states: seq<Sess>, acts: seq<Option<Event>>, a: nat, d: nat, frame: Frame, reply: Frame)
    requires |states| == |acts| + 1
  {
    && a < d && a < |acts| && StartedAt(states, acts, a, frame, states[a].server.nextTask)
    && FinishedAt(acts, d, states[a].server.nextTask, reply.body)
    && reply == Frame(frame.id, true, OtherKind, false, reply.body)
  }

  /** Before step n the request was read and answered this way. */
  ghost predicate AnsweredBefore(states: seq<Sess>, acts: seq<Option<Event>>, n: nat, frame: Frame, reply: Frame)
    requires |states| == |acts| + 1
  {
    || (exists a: nat :: a < n && AnsweredInPlace(states, acts, a, frame, reply))
    || (exists a: nat, d: nat :: d < n && AnsweredByHandler(states, acts, a, d, frame, reply))
  }

  // ---- the asking side ----

  ghost predicate CallsBegun(states: seq<Sess>, acts: seq<Option<Event>>, n: nat)
    requires |states| == |acts| + 1 && n < |states|
  {
    forall id :: id in states[n].client.calls ==> CallBegun(states, acts, n, states[n].client.calls[id].frame)
  }

  ghost predicate CallBegun(states: seq<Sess>, acts: seq<Option<Event>>, n: nat, frame: Frame)
    requires |states| == |acts| + 1
  {
    exists b: nat :: b < n && BegunAt(states, acts, b, frame)
  }

  /** A step lists one new call at most and leaves the frames of the others. */
  lemma StepCalls(s: Sess, e: Event, id: nat)
    requires Enabled(s, e) && id in After(s, e).client.calls
    ensures var frame := After(s, e).client.calls[id].frame;
      || (id in s.client.calls && frame == s.client.calls[id].frame)
      || (e.Begin? && e == Begin(frame.kind, frame.body) && frame == Frame(s.client.nextId + 1, false, frame.kind, false, frame.body))
  {
    hide Asked, HandlerDone, GivenBack, Answered;
  }

  lemma {:induction false} EveryCallIsBegun(states: seq<Sess>, acts: seq<Option<Event>>, n: nat)
    requires IsTrace(states, acts) && n < |states|
    ensures CallsBegun(states, acts, n)
  {
    hide After, Enabled, BegunAt;
    if n == 0 {
    } else {
      EveryCallIsBegun(states, acts, n - 1);
      forall id | id in states[n].client.calls
        ensures CallBegun(states, acts, n, states[n].client.calls[id].frame)
      {
        CallIsBegun(states, acts, n - 1, id);
      }
    }
  }

  lemma CallIsBegun(states: seq<Sess>, acts: seq<Option<Event>>, n: nat, id: nat)
    requires IsTrace(states, acts) && n < |acts| && CallsBegun(states, acts, n) && id in states[n + 1].client.calls
    ensures CallBegun(states, acts, n + 1, states[n + 1].client.calls[id].frame)
  {
    var frame := states[n + 1].client.calls[id].frame;
    if acts[n].Some? {
      StepCalls(states[n], acts[n].value, id);
    }
    hide After, Enabled, Init;
    if id in states[n].client.calls && frame == states[n].client.calls[id].frame {
      assert CallBegun(states, acts, n, frame);
      var b: nat :| b < n && BegunAt(states, acts, b, frame);
    } else {
      assert BegunAt(states, acts, n, frame);
    }
  }

  // ---- the asked side ----

  /** A handler's request was read before n, and if it has finished, it did so before n and with this body. */
  ghost predicate TaskExplained(states: seq<Sess>, acts: seq<Option<Event>>, n: nat, t: nat, task: Task)
    requires |states| == |acts| + 1
  {
    exists a: nat :: a < n && StartedAt(states, acts, a, task.request, t) && (task.work.Running? || EndedBetween(acts, a, n, t, task.work.body))
  }

  ghost predicate EndedBetween(acts: seq<Option<Event>>, a: nat, n: nat, t: nat, body: int) {
    exists d: nat :: a < d < n && FinishedAt(acts, d, t, body)
  }

  ghost predicate ServerExplained(states: seq<Sess>, acts: seq<Option<Event>>, n: nat)
    requires |states| == |acts| + 1 && n < |states|
  {
    var v := states[n].server;
    && (forall t :: t in v.tasks ==> TaskExplained(states, acts, n, t, v.tasks[t]))
    && (forall t :: t in v.tasks ==> v.tasks[t].request.id in v.asked && v.asked[v.tasks[t].request.id] == v.tasks[t].request)
    && (forall id :: id in v.answers ==> id in v.asked && AnsweredBefore(states, acts, n, v.asked[id], v.answers[id]))
  }

  lemma TaskLater(states: seq<Sess>, acts: seq<Option<Event>>, n: nat, m: nat, t: nat, task: Task)
    requires |states| == |acts| + 1 && n <= m && TaskExplained(states, acts, n, t, task)
    ensures TaskExplained(states, acts, m, t, task)
  {
    hide StartedAt, FinishedAt;
    var a: nat :| a < n && StartedAt(states, acts, a, task.request, t) && (task.work.Running? || EndedBetween(acts, a, n, t, task.work.body));
    assert task.work.Running? || EndedBetween(acts, a, m, t, task.work.body);
  }

  lemma AnsweredLater(states: seq<Sess>, acts: seq<Option<Event>>, n: nat, m: nat, frame: Frame, reply: Frame)
    requires |states| == |acts| + 1 && n <= m && AnsweredBefore(states, acts, n, frame, reply)
    ensures AnsweredBefore(states, acts, m, frame, reply)
  {
    hide AnsweredInPlace, AnsweredByHandler;
  }

  /** Nothing is asked or answered, and handlers stay as they are or give their quota back. */
  ghost predicate Rests(v: Server, w: Server) {
    && w.asked == v.asked && w.answers == v.answers && w.tasks.Keys == v.tasks.Keys
    && forall t :: t in w.tasks ==>
         && w.tasks[t].request == v.tasks[t].request
         && (w.tasks[t].work == v.tasks[t].work || (v.tasks[t].work.Finished? && w.tasks[t].work == Released(v.tasks[t].work.body)))
  }

  lemma ServerRests(states: seq<Sess>, acts: seq<Option<Event>>, n: nat)
    requires |states| == |acts| + 1 && n < |acts| && ServerExplained(states, acts, n)
    requires Rests(states[n].server, states[n + 1].server)
    ensures ServerExplained(states, acts, n + 1)
  {
    hide AnsweredBefore;
    var v, w := states[n].server, states[n + 1].server;
    forall t | t in w.tasks
      ensures TaskExplained(states, acts, n + 1, t, w.tasks[t])
    {
      TaskLater(states, acts, n, n + 1, t, v.tasks[t]);
    }
    forall id | id in w.answers
      ensures AnsweredBefore(states, acts, n + 1, w.asked[id], w.answers[id])
    {
      AnsweredLater(states, acts, n, n + 1, v.asked[id], v.answers[id]);
    }
  }

  lemma TaskStarts(states: seq<Sess>, acts: seq<Option<Event>>, n: nat, f: Frame, body: int, ok: bool)
    requires |states| == |acts| + 1 && n < |acts| && acts[n] == Some(ReadRequest(f, body, ok)) && TakesIn(states[n].server, f)
    ensures TaskExplained(states, acts, n + 1, states[n].server.nextTask, Task(f, Running))
  {
    assert StartedAt(states, acts, n, f, states[n].server.nextTask);
  }

  lemma AnswersInPlace(states: seq<Sess>, acts: seq<Option<Event>>, n: nat, f: Frame, body: int, ok: bool)
    requires |states| == |acts| + 1 && n < |acts| && acts[n] == Some(ReadRequest(f, body, ok)) && !TakesIn(states[n].server, f)
    ensures AnsweredBefore(states, acts, n + 1, f, InlineReply(states[n].server, f, body))
  {
    assert AnsweredInPlace(states, acts, n, f, InlineReply(states[n].server, f, body));
  }

  lemma ServerReads(states: seq<Sess>, acts: seq<Option<Event>>, n: nat, f: Frame, body: int, ok: bool)
    requires |states| == |acts| + 1 && n < |acts| && ServerExplained(states, acts, n) && f.id !in states[n].server.asked
    requires acts[n] == Some(ReadRequest(f, body, ok)) && states[n + 1].server == Asked(states[n].server, f, body)
    ensures ServerExplained(states, acts, n + 1)
  {
    var v, w := states[n].server, states[n + 1].server;
    if TakesIn(v, f) {
      TaskStarts(states, acts, n, f, body, ok);
    } else {
      AnswersInPlace(states, acts, n, f, body, ok);
    }
    hide TaskExplained, AnsweredBefore, TakesIn, InlineReply;
    forall t | t in w.tasks
      ensures TaskExplained(states, acts, n + 1, t, w.tasks[t])
    {
      if t in v.tasks && w.tasks[t] == v.tasks[t] {
        TaskLater(states, acts, n, n + 1, t, v.tasks[t]);
      }
    }
    forall id | id in w.answers
      ensures id in w.asked && AnsweredBefore(states, acts, n + 1, w.asked[id], w.answers[id])
    {
      if id in v.answers {
        AnsweredLater(states, acts, n, n + 1, v.asked[id], v.answers[id]);
      }
    }
  }

  lemma TaskEnds(states: seq<Sess>, acts: seq<Option<Event>>, n: nat, t: nat, f: Frame, body: int)
    requires |states| == |acts| + 1 && n < |acts| && acts[n] == Some(Finish(t, body))
    requires TaskExplained(states, acts, n, t, Task(f, Running))
    ensures TaskExplained(states, acts, n + 1, t, Task(f, Finished(body)))
  {
    hide StartedAt;
    var a: nat :| a < n && StartedAt(states, acts, a, f, t);
    assert FinishedAt(acts, n, t, body);
    assert EndedBetween(acts, a, n + 1, t, body);
  }

  lemma ServerFinishes(states: seq<Sess>, acts: seq<Option<Event>>, n: nat, t: nat, body: int)
    requires |states| == |acts| + 1 && n < |acts| && ServerExplained(states, acts, n) && TaskAt(states[n].server, t, Running)
    requires acts[n] == Some(Finish(t, body)) && states[n + 1].server == HandlerDone(states[n].server, t, body)
    ensures ServerExplained(states, acts, n + 1)
  {
    var v, w := states[n].server, states[n + 1].server;
    TaskEnds(states, acts, n, t, v.tasks[t].request, body);
    hide TaskExplained, AnsweredBefore;
    forall u | u in w.tasks
      ensures TaskExplained(states, acts, n + 1, u, w.tasks[u])
    {
      if u != t {
        TaskLater(states, acts, n, n + 1, u, v.tasks[u]);
      }
    }
    forall id | id in w.answers
      ensures AnsweredBefore(states, acts, n + 1, w.asked[id], w.answers[id])
    {
      AnsweredLater(states, acts, n, n + 1, v.asked[id], v.answers[id]);
    }
  }

  lemma TaskIsAnswered(states: seq<Sess>, acts: seq<Option<Event>>, n: nat, t: nat)
    requires |states| == |acts| + 1 && n < |states| && ReplyDue(states[n].server, t)
    requires TaskExplained(states, acts, n, t, states[n].server.tasks[t])
    ensures AnsweredBefore(states, acts, n, states[n].server.tasks[t].request, ReplyOf(states[n].server, t))
  {
    var task := states[n].server.tasks[t];
    var a: nat :| a < n && StartedAt(states, acts, a, task.request, t) && EndedBetween(acts, a, n, t, task.work.body);
    var d: nat :| a < d < n && FinishedAt(acts, d, t, task.work.body);
    assert AnsweredByHandler(states, acts, a, d, task.request, ReplyOf(states[n].server, t));
  }

  lemma ServerAnswers(states: seq<Sess>, acts: seq<Option<Event>>, n: nat, t: nat)
    requires |states| == |acts| + 1 && n < |acts| && ServerExplained(states, acts, n)
    requires ReplyDue(states[n].server, t) && states[n + 1].server == Answered(states[n].server, t)
    ensures ServerExplained(states, acts, n + 1)
  {
    var v, w := states[n].server, states[n + 1].server;
    TaskIsAnswered(states, acts, n, t);
    hide TaskExplained, AnsweredBefore, ReplyOf;
    forall u | u in w.tasks
      ensures TaskExplained(states, acts, n + 1, u, w.tasks[u])
    {
      TaskLater(states, acts, n, n + 1, u, v.tasks[u]);
    }
    AnsweredLater(states, acts, n, n + 1, v.tasks[t].request, ReplyOf(v, t));
    forall id | id in w.answers
      ensures AnsweredBefore(states, acts, n + 1, w.asked[id], w.answers[id])
    {
      if id != v.tasks[t].request.id {
        AnsweredLater(states, acts, n, n + 1, v.asked[id], v.answers[id]);
      }
    }
  }

  /** The steps that leave the serving half alone, or only give quota back. */
  lemma StepRests(s: Sess, e: Event)
    requires Enabled(s, e) && !e.ReadRequest? && !e.Finish? && !e.Answer?
    ensures Rests(s.server, After(s, e).server)
  {
    hide Begun, Enlisted, Sent, Left, Moved, Taken, Delivered, Woken, Asked, HandlerDone, Answered;
  }

  lemma TraceStep(states: seq<Sess>, acts: seq<Option<Event>>, n: nat)
    requires IsTrace(states, acts) && n < |acts| && acts[n].Some?
    ensures Enabled(states[n], acts[n].value) && states[n + 1] == After(states[n], acts[n].value)
  {
    hide Enabled, After, Init;
  }

  lemma ServerStep(states: seq<Sess>, acts: seq<Option<Event>>, n: nat)
    requires IsTrace(states, acts) && FreshReads(states, acts) && n < |acts| && ServerExplained(states, acts, n)
    ensures ServerExplained(states, acts, n + 1)
  {
    hide ServerExplained, Asked, HandlerDone, Answered, GivenBack, Begun, Enlisted, Sent, Left, Moved, Taken, Delivered, Woken;
    if acts[n].None? {
      ServerRests(states, acts, n);
    } else {
      var e := acts[n].value;
      TraceStep(states, acts, n);
      hide IsTrace;
      match e
      case ReadRequest(f, body, ok) => ServerReads(states, acts, n, f, body, ok);
      case Finish(t, body) => ServerFinishes(states, acts, n, t, body);
      case Answer(t, ok) => ServerAnswers(states, acts, n, t);
      case _ =>
        StepRests(states[n], e);
        ServerRests(states, acts, n);
    }
  }

  lemma {:induction false} EveryAnswerIsExplained(states: seq<Sess>, acts: seq<Option<Event>>, n: nat)
    requires IsTrace(states, acts) && FreshReads(states, acts) && n < |states|
    ensures ServerExplained(states, acts, n)
  {
    if n > 0 {
      hide IsTrace, FreshReads, ServerExplained;
      assert |states| == |acts| + 1 by { TraceLength(states, acts); }
      EveryAnswerIsExplained(states, acts, n - 1);
      ServerStep(states, acts, n - 1);
    }
  }

  lemma TraceLength(states: seq<Sess>, acts: seq<Option<Event>>)
    requires IsTrace(states, acts)
    ensures |states| == |acts| + 1
  {
  }

  // ---- the two sides of a run ----

  function Lefts(pairs: seq<Pair>): (r: seq<Sess>)
    ensures |r| == |pairs| && forall i :: 0 <= i < |pairs| ==> r[i] == pairs[i].left
  {
    seq(|pairs|, i requires 0 <= i < |pairs| => pairs[i].left)
  }

  function Rights(pairs: seq<Pair>): (r: seq<Sess>)
    ensures |r| == |pairs| && forall i :: 0 <= i < |pairs| ==> r[i] == pairs[i].right
  {
    seq(|pairs|, i requires 0 <= i < |pairs| => pairs[i].right)
  }

  function LeftAct(t: Step): Option<Event> {
    if t.ByLeft? then Some(t.e) else None
  }

  function RightAct(t: Step): Option<Event> {
    if t.ByRight? then Some(t.e) else None
  }

  function LeftActs(steps: seq<Step>): (r: seq<Option<Event>>)
    ensures |r| == |steps| && forall i :: 0 <= i < |steps| ==> r[i] == LeftAct(steps[i])
  {
    seq(|steps|, i requires 0 <= i < |steps| => LeftAct(steps[i]))
  }

  function RightActs(steps: seq<Step>): (r: seq<Option<Event>>)
    ensures |r| == |steps| && forall i :: 0 <= i < |steps| ==> r[i] == RightAct(steps[i])
  {
    seq(|steps|, i requires 0 <= i < |steps| => RightAct(steps[i]))
  }

  lemma SidesAreTraces(pairs: seq<Pair>, steps: seq<Step>)
    requires IsPairRun(pairs, steps)
    ensures IsTrace(Lefts(pairs), LeftActs(steps)) && IsTrace(Rights(pairs), RightActs(steps))
  {
    hide Enabled, After, Written, Rest, Reads, Init;
    forall i | 0 <= i < |steps|
      ensures if steps[i].ByLeft? then Enabled(pairs[i].left, steps[i].e) && pairs[i + 1].left == After(pairs[i].left, steps[i].e) && pairs[i + 1].right == pairs[i].right
              else Enabled(pairs[i].right, steps[i].e) && pairs[i + 1].right == After(pairs[i].right, steps[i].e) && pairs[i + 1].left == pairs[i].left
    {
      assert CanStep(pairs[i], steps[i]) && pairs[i + 1] == Steps(pairs[i], steps[i]);
    }
  }

  /** A request at the head of the wire was not read before and is a call of the other side. */
  lemma HeadIsFresh(p: Pair, e: Event)
    requires PairOk(p) && CanMove(p, e) && e.ReadRequest?
    ensures e.f.id !in p.left.server.asked
    ensures e.f.id in p.right.client.calls && p.right.client.calls[e.f.id].frame == e.f
  {
    ServerWires(p.left, p.toRight, p.toLeft, e);
    hide SessionOk, RepliesOk, HistoryOk, ServedOk, Asking, Replying, Written;
    assert FlightOk(p.right.client, p.left.server, Asking(p.toLeft));
  }

  /** Every read of the side theirs is of a request number not read before, begun by the side mine. */
  ghost predicate ReadsAreCalls(mine: seq<Sess>, theirs: seq<Sess>, theirActs: seq<Option<Event>>)
    requires |mine| == |theirs| == |theirActs| + 1
  {
    forall i :: 0 <= i < |theirActs| && theirActs[i].Some? && theirActs[i].value.ReadRequest? ==>
      var f := theirActs[i].value.f;
      f.id !in theirs[i].server.asked && f.id in mine[i].client.calls && mine[i].client.calls[f.id].frame == f
  }

  lemma ReadsAreFresh(pairs: seq<Pair>, steps: seq<Step>)
    requires IsPairRun(pairs, steps)
    ensures ReadsAreCalls(Rights(pairs), Lefts(pairs), LeftActs(steps)) && ReadsAreCalls(Lefts(pairs), Rights(pairs), RightActs(steps))
  {
    forall i | 0 <= i < |steps| && steps[i].e.ReadRequest?
      ensures var p, f := pairs[i], steps[i].e.f;
        if steps[i].ByLeft? then f.id !in p.left.server.asked && f.id in p.right.client.calls && p.right.client.calls[f.id].frame == f
        else f.id !in p.right.server.asked && f.id in p.left.client.calls && p.left.client.calls[f.id].frame == f
    {
      PairRunsStayOk(pairs, steps, i);
      SwapOk(pairs[i]);
      assert CanStep(pairs[i], steps[i]);
      hide PairOk, CanMove, IsPairRun;
      if steps[i].ByLeft? {
        HeadIsFresh(pairs[i], steps[i].e);
      } else {
        HeadIsFresh(Swap(pairs[i]), steps[i].e);
      }
    }
  }

  /** Step b begins the request, step a of the peer reads it and it is answered with f before n: by step a itself, or by
      the handler that step a starts and that ends in step d. */
  ghost predicate WentAndCame(mine: seq<Sess>, acts: seq<Option<Event>>, theirs: seq<Sess>, theirActs: seq<Option<Event>>, n: nat,
                              request: Frame, f: Frame, b: nat, a: nat)
    requires |mine| == |acts| + 1 == |theirs| == |theirActs| + 1
  {
    && b < a < n && BegunAt(mine, acts, b, request)
    && (AnsweredInPlace(theirs, theirActs, a, request, f) || exists d: nat :: d < n && AnsweredByHandler(theirs, theirActs, a, d, request, f))
  }

  lemma ReadWasBegun(mine: seq<Sess>, acts: seq<Option<Event>>, theirs: seq<Sess>, theirActs: seq<Option<Event>>, a: nat, request: Frame)
    returns (b: nat)
    requires IsTrace(mine, acts) && |mine| == |theirs| == |theirActs| + 1 && ReadsAreCalls(mine, theirs, theirActs)
    requires ReadAt(theirActs, a, request)
    ensures b < a && BegunAt(mine, acts, b, request)
  {
    EveryCallIsBegun(mine, acts, a);
    hide IsTrace, BegunAt;
    assert CallBegun(mine, acts, a, request);
    b :| b < a && BegunAt(mine, acts, b, request);
  }

  lemma AnswerWasRead(states: seq<Sess>, acts: seq<Option<Event>>, n: nat, request: Frame, f: Frame) returns (a: nat)
    requires |states| == |acts| + 1 && AnsweredBefore(states, acts, n, request, f)
    ensures a < n && ReadAt(acts, a, request)
    ensures AnsweredInPlace(states, acts, a, request, f) || exists d: nat :: d < n && AnsweredByHandler(states, acts, a, d, request, f)
  {
    if x: nat :| x < n && AnsweredInPlace(states, acts, x, request, f) {
      a := x;
    } else {
      var x: nat, d: nat :| d < n && AnsweredByHandler(states, acts, x, d, request, f);
      a := x;
    }
  }

  /** Over every run of two joined sessions: if a Request returned a frame, the caller began it in an earlier step; the
      peer read that very frame in a later one; and either that read answered it in place with this body, or it
      started a handler whose end, later still, came with this body. */
  lemma ReturnedComesFromPeer(pairs: seq<Pair>, steps: seq<Step>, n: nat, id: nat, f: Frame)
    requires IsPairRun(pairs, steps) && n < |pairs|
    ensures CallAt(pairs[n].left.client, id, Returned(Some(f))) ==> exists b, a ::
      WentAndCame(Lefts(pairs), LeftActs(steps), Rights(pairs), RightActs(steps), n, pairs[n].left.client.calls[id].frame, f, b, a)
    ensures CallAt(pairs[n].right.client, id, Returned(Some(f))) ==> exists b, a ::
      WentAndCame(Rights(pairs), RightActs(steps), Lefts(pairs), LeftActs(steps), n, pairs[n].right.client.calls[id].frame, f, b, a)
  {
    SidesAreTraces(pairs, steps);
    ReadsAreFresh(pairs, steps);
    RepliesMatchRequests(pairs, steps, n);
    var l, la, r, ra := Lefts(pairs), LeftActs(steps), Rights(pairs), RightActs(steps);
    assert |l| == |r| == |la| + 1 == |ra| + 1;
    hide IsPairRun, IsTrace, ReadsAreCalls, Lefts, Rights, LeftActs, RightActs, AnsweredByPeer, WentAndCame;
    if CallAt(pairs[n].left.client, id, Returned(Some(f))) {
      var b, a := ReturnedAt(l, la, r, ra, n, id, f);
    }
    if CallAt(pairs[n].right.client, id, Returned(Some(f))) {
      var b, a := ReturnedAt(r, ra, l, la, n, id, f);
    }
  }

  lemma ReturnedAt(mine: seq<Sess>, acts: seq<Option<Event>>, theirs: seq<Sess>, theirActs: seq<Option<Event>>, n: nat, id: nat, f: Frame)
    returns (b: nat, a: nat)
    requires |mine| == |acts| + 1 == |theirs| == |theirActs| + 1 && n < |mine|
    requires IsTrace(mine, acts) && IsTrace(theirs, theirActs) && ReadsAreCalls(mine, theirs, theirActs)
    requires AnsweredByPeer(mine[n].client, theirs[n].server) && CallAt(mine[n].client, id, Returned(Some(f)))
    ensures WentAndCame(mine, acts, theirs, theirActs, n, mine[n].client.calls[id].frame, f, b, a)
  {
    var request := mine[n].client.calls[id].frame;
    EveryAnswerIsExplained(theirs, theirActs, n);
    assert theirs[n].server.asked[id] == request && theirs[n].server.answers[id] == f;
    hide IsTrace, ReadsAreCalls, AnsweredBefore, TaskExplained, AnsweredInPlace, AnsweredByHandler, ReadAt, BegunAt;
    a := AnswerWasRead(theirs, theirActs, n, request, f);
    b := ReadWasBegun(mine, acts, theirs, theirActs, a, request);
  }

  // ---- a call gets through ----

  /** The step can be taken, writes these frames and leads to r. */
  ghost predicate Leads(s: Sess, e: Event, out: seq<Frame>, r: Sess) {
    Enabled(s, e) && Written(s, e) == out && After(s, e) == r
  }

  /** A Request call of an open session is listed and puts its frame on the wire. */
  lemma RequestGoesOut(s: Sess, kind: Kind, body: int) returns (s1: Sess, s2: Sess, s3: Sess)
    requires s.closing == NotYet
    ensures var id := s.client.nextId + 1;
      && Leads(s, Begin(kind, body), [], s1)
      && Leads(s1, List(id), [], s2) && id in s2.client.pending
      && Leads(s2, Write(id, true), [Frame(id, false, kind, false, body)], s3)
      && CallAt(s3.client, id, Waiting) && id in s3.client.pending && s3.server == s.server
  {
    var id := s.client.nextId + 1;
    s1 := After(s, Begin(kind, body));
    s2 := After(s1, List(id));
    s3 := After(s2, Write(id, true));
  }

  /** A dispatched request read within the quota is handled and answered with what the handler ended with, and the quota
      is back before the reply is written. */
  lemma RequestIsServed(s: Sess, f: Frame, b: int, body: int) returns (s1: Sess, s2: Sess, s3: Sess, s4: Sess)
    requires s.closing == NotYet && AtRead(s) && !f.reply && f.id != 0 && GoesToHandler(s, f)
    ensures var t := s.server.nextTask;
      && Leads(s, ReadRequest(f, b, true), [], s1) && s1.server.held == s.server.held + 1
      && Leads(s1, Finish(t, body), [], s2) && s2.server.held == s.server.held + 1
      && Leads(s2, Release(t), [], s3) && s3.server.held == s.server.held
      && Leads(s3, Answer(t, true), [Frame(f.id, true, OtherKind, false, body)], s4) && s4.server.held == s.server.held
      && s4.client == s.client && AtRead(s1) && AtRead(s4)
  {
    var t := s.server.nextTask;
    s1 := After(s, ReadRequest(f, b, true));
    s2 := After(s1, Finish(t, body));
    s3 := After(s2, Release(t));
    s4 := After(s3, Answer(t, true));
  }

  /** Any other request is answered by the read itself: the one refused for lack of quota is told busy, and nothing is
      started. */
  lemma OthersAreAnsweredInPlace(s: Sess, f: Frame, body: int) returns (s1: Sess)
    requires s.closing == NotYet && AtRead(s) && !f.reply && f.id != 0 && !GoesToHandler(s, f)
    ensures Leads(s, ReadRequest(f, body, true), [Frame(f.id, true, OtherKind, f.kind == Dispatched && s.server.peerSet, body)], s1)
    ensures s1.server.tasks == s.server.tasks && s1.server.held == s.server.held && s1.client == s.client && AtRead(s1)
  {
    s1 := After(s, ReadRequest(f, body, true));
  }

  /** A reply read while its request waits is what Request returns. */
  lemma ReplyComesHome(s: Sess, f: Frame) returns (s1: Sess, s2: Sess, s3: Sess)
    requires SessionOk(s) && AtRead(s) && f.reply && f.id in s.client.pending && CallAt(s.client, f.id, Waiting)
    ensures Leads(s, ReadReply(f), [], s1)
    ensures Leads(s1, Deliver, [], s2)
    ensures Leads(s2, WakeAnswered(f.id), [], s3)
    ensures CallAt(s3.client, f.id, Returned(Some(f))) && f.id !in s3.client.pending && AtRead(s3) && s3.server == s.server
  {
    s1 := After(s, ReadReply(f));
    StepSession(s, ReadReply(f));
    RoomForHand(s1);
    assert s1.client.mailbox[f.id] == [];
    s2 := After(s1, Deliver);
    assert s2.client.mailbox[f.id] == [f];
    s3 := After(s2, WakeAnswered(f.id));
  }

  /** Installing the peer changes that alone; a one-way frame of an open session goes out and changes nothing. */
  lemma PeerAndPush(s: Sess, f: Frame) returns (s1: Sess)
    requires s.closing == NotYet && f.id == 0 && !f.reply
    ensures Leads(s, SetPeer, [], s1) && s1 == s.(server := s.server.(peerSet := true))
    ensures Leads(s, Push(f, true), [f], s)
  {
    s1 := After(s, SetPeer);
  }

  /** A request whose write fails, or whose context ends while it waits, unlists itself and returns without an answer. */
  lemma FailedRequestLeaves(s: Sess, id: nat, e: Event) returns (s1: Sess, s2: Sess)
    requires (CallAt(s.client, id, Listed) && e == Write(id, false)) || (CallAt(s.client, id, Waiting) && e == Cancel(id))
    ensures Leads(s, e, [], s1) && CallAt(s1.client, id, Leaving)
    ensures Leads(s1, Leave(id), [], s2) && CallAt(s2.client, id, Returned(None)) && s2.client.pending == s.client.pending - {id}
    ensures s2.server == s.server
  {
    s1 := After(s, e);
    s2 := After(s1, Leave(id));
  }

  /** At its read the loop can take any frame, or fail. */
  lemma LoopReads(s: Sess, f: Frame, b: int, ok: bool) returns (s1: Sess)
    requires AtRead(s)
    ensures Leads(s, ReadFails, [], s1) && s1 == s.(reading := false)
    ensures Enabled(s, if f.reply then ReadReply(f) else if f.id != 0 then ReadRequest(f, b, ok) else ReadOneWay(f))
    ensures !f.reply && f.id == 0 ==> Leads(s, ReadOneWay(f), [], if f.kind == Shutdown then s1 else s)
    ensures f.reply && f.id !in s.client.pending ==> After(s, ReadReply(f)).client.hand.None?
  {
    s1 := After(s, ReadFails);
  }

  // ---- no entry is left behind ----

  /** Whoever is listed in pending has not returned, but for callers woken while the session is just closing. */
  ghost predicate ListedAreActive(s: Sess) {
    forall id :: id in s.client.pending && id in s.client.calls && s.client.calls[id].stage.Returned? ==> s.closing == Signalled
  }

  lemma StepKeepsListed(s: Sess, e: Event)
    requires SessionOk(s) && ListedAreActive(s) && Enabled(s, e)
    ensures ListedAreActive(After(s, e))
  {
    hide Asked, HandlerDone, GivenBack, Answered, QuotaOk;
    if e.WakeAnswered? {
      ChannelHoldsItsOwn(s.client, e.id);
    }
  }

  /** A Request that returned, be it answered, failed or cancelled, leaves no entry in pending; only callers woken by the
      closing do, until it clears them all. */
  lemma {:induction false} ReturnedAreUnlisted(states: seq<Sess>, events: seq<Event>, n: nat)
    requires IsRun(states, events) && n < |states|
    ensures ListedAreActive(states[n])
  {
    hide After, Enabled, SessionOk;
    if n > 0 {
      hide Init, ListedAreActive;
      ReturnedAreUnlisted(states, events, n - 1);
      RunsStayOk(states, events, n - 1);
      StepKeepsListed(states[n - 1], events[n - 1]);
    }
  }

  // ---- closing ----

  /** The receive loop ends exactly when its read fails or reads a shutdown. */
  lemma LoopEndsIff(s: Sess, e: Event)
    requires Enabled(s, e) && s.reading
    ensures !After(s, e).reading <==> e.ReadFails? || (e.ReadOneWay? && e.f.kind == Shutdown)
  {
    hide Begun, Enlisted, Sent, Left, Moved, Taken, Delivered, Woken, Asked, HandlerDone, Answered, GivenBack;
  }

  /** Closing signals done, empties pending with the stream closed, and notifies once. */
  lemma CloseGoesThrough(s: Sess) returns (s1: Sess, s2: Sess, s3: Sess)
    requires s.closing == NotYet
    ensures Leads(s, Signal, [], s1) && Done(s1) && !StreamClosed(s1)
    ensures Leads(s1, Clear, [], s2) && StreamClosed(s2) && s2.client.pending == {}
    ensures Leads(s2, Notify, [], s3) && s3.notifications == s.notifications + 1
    ensures forall e :: e in [Signal, Clear, Notify] ==> !Enabled(s3, e)
  {
    s1 := After(s, Signal);
    s2 := After(s1, Clear);
    s3 := After(s2, Notify);
  }

  /** Not begun, not listed yet, or returned without an answer. */
  ghost predicate OutOfPlay(c: Client, id: nat) {
    id in c.calls ==> c.calls[id].stage == Numbered || c.calls[id].stage == Returned(None)
  }

  lemma StepKeepsOut(s: Sess, e: Event, id: nat)
    requires Enabled(s, e) && Done(s) && OutOfPlay(s.client, id)
    ensures Done(After(s, e)) && OutOfPlay(After(s, e).client, id)
  {
    hide Asked, HandlerDone, GivenBack, Answered;
  }

  /** A request not listed when done is closed is never written, and can only return without an answer. */
  lemma {:induction false} NoneGoesOutAfterDone(states: seq<Sess>, events: seq<Event>, m: nat, n: nat, id: nat)
    requires IsRun(states, events) && m <= n < |states| && Done(states[m]) && OutOfPlay(states[m].client, id)
    ensures Done(states[n]) && OutOfPlay(states[n].client, id)
    ensures n < |events| ==> !(events[n].Write? && events[n].id == id)
  {
    hide After, Init, Done;
    if m < n {
      NoneGoesOutAfterDone(states, events, m, n - 1, id);
      StepKeepsOut(states[n - 1], events[n - 1], id);
    }
    assert n < |events| ==> Enabled(states[n], events[n]);
  }

  /** Once done is closed every waiting Request can return, without an answer. */
  lemma NobodyHangs(s: Sess, id: nat)
    requires Done(s) && CallAt(s.client, id, Waiting)
    ensures Enabled(s, WakeClosed(id)) && CallAt(After(s, WakeClosed(id)).client, id, Returned(None))
  {
  }
}
