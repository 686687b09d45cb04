// Two sessions joined by FIFO streams: every reply belongs to the request it answers, and a side that
// keeps its unanswered requests within the other side's quota is never told busy, whatever the other does.
module SessionPair {
  import opened Text
  import opened Session

  // ---- one direction: a client here, a server there ----

  /** The requests on a wire, in order. */
  function Asking(w: seq<Frame>): seq<Frame> {
    if w == [] then [] else if !w[0].reply && w[0].id != 0 then [w[0]] + Asking(w[1..]) else Asking(w[1..])
  }

  /** The replies on a wire, in order. */
  function Replying(w: seq<Frame>): seq<Frame> {
    if w == [] then [] else if w[0].reply then [w[0]] + Replying(w[1..]) else Replying(w[1..])
  }

  lemma {:induction false} WireAppend(w: seq<Frame>, f: Frame)
    ensures Asking(w + [f]) == if !f.reply && f.id != 0 then Asking(w) + [f] else Asking(w)
    ensures Replying(w + [f]) == if f.reply then Replying(w) + [f] else Replying(w)
  {
    if w == [] {
      assert [] + [f] == [f];
    } else {
      assert (w + [f])[1..] == w[1..] + [f];
      WireAppend(w[1..], f);
    }
  }

  predicate Past(c: Client, id: nat) {
    id in c.calls && c.calls[id].stage != Numbered && c.calls[id].stage != Listed
  }

  /** Requests in flight: written once, as called, not read yet. */
  ghost predicate FlightOk(c: Client, v: Server, asks: seq<Frame>) {
    && (forall i :: 0 <= i < |asks| ==> Past(c, asks[i].id) && c.calls[asks[i].id].frame == asks[i] && asks[i].id !in v.asked)
    && (forall i, j :: 0 <= i < j < |asks| ==> asks[i].id != asks[j].id)
  }

  /** Requests read were called here, and replies produced are for requests read. */
  ghost predicate HistoryOk(c: Client, v: Server) {
    && (forall id :: id in v.asked ==> Past(c, id) && c.calls[id].frame == v.asked[id])
    && (forall id :: id in v.answers ==> id in v.asked && v.answers[id].id == id)
  }

  /** Requests being served were read, are unanswered and all different. */
  ghost predicate ServedOk(v: Server) {
    && (forall n :: n in v.tasks ==> ServedAt(v, v.tasks[n].request))
    && (forall m, n :: m in v.tasks && n in v.tasks && v.tasks[m].request.id == v.tasks[n].request.id ==> m == n)
  }

  ghost predicate ServedAt(v: Server, f: Frame) {
    f.id in v.asked && f.id !in v.answers
  }

  ghost predicate IsAnswer(v: Server, f: Frame) {
    f.id in v.answers && v.answers[f.id] == f
  }

  /** Every reply on its way, in the hand, in a channel or returned is the one produced. */
  ghost predicate RepliesOk(c: Client, v: Server, replies: seq<Frame>) {
    && (forall i :: 0 <= i < |replies| ==> IsAnswer(v, replies[i]))
    && (c.hand.Some? ==> IsAnswer(v, c.hand.value))
    && (forall id :: id in c.mailbox && c.mailbox[id] != [] ==> IsAnswer(v, c.mailbox[id][0]))
    && (forall id :: id in c.calls && c.calls[id].stage.Returned? && c.calls[id].stage.answer.Some? ==>
          IsAnswer(v, c.calls[id].stage.answer.value))
  }

  /** The two sides agree on who asked what and who answered what. */
  ghost predicate LinkOk(c: Client, v: Server, asks: seq<Frame>, replies: seq<Frame>) {
    FlightOk(c, v, asks) && HistoryOk(c, v) && ServedOk(v) && RepliesOk(c, v, replies)
  }

  /** The client keeps within the quota: what is in flight or being served is open, and nothing was refused. */
  ghost predicate ThriftOk(c: Client, v: Server, asks: seq<Frame>) {
    && (forall i :: 0 <= i < |asks| && asks[i].kind == Dispatched ==> asks[i].id in c.open)
    && (forall n :: n in v.tasks ==> v.tasks[n].request.id in c.open)
    && (forall id :: id in v.answers ==> !v.answers[id].busy)
    && |c.open| <= v.cap
  }

  // ---- the client's steps ----

  /** Nothing the other side knows of changes. */
  ghost predicate Quietly(c: Client, d: Client) {
    forall id :: Past(c, id) ==> Past(d, id) && d.calls[id].frame == c.calls[id].frame
  }

  lemma QuietLinks(c: Client, d: Client, v: Server, asks: seq<Frame>, replies: seq<Frame>)
    requires LinkOk(c, v, asks, replies) && Quietly(c, d) && RepliesOk(d, v, replies)
    ensures LinkOk(d, v, asks, replies)
  {
    hide RepliesOk, Past;
  }

  lemma BegunLinks(c: Client, v: Server, asks: seq<Frame>, replies: seq<Frame>, kind: Kind, body: int)
    requires LinkOk(c, v, asks, replies) && NumbersOk(c)
    ensures LinkOk(Begun(c, kind, body), v, asks, replies)
  {
    var d := Begun(c, kind, body);
    assert Quietly(c, d) && RepliesOk(d, v, replies);
    hide Quietly, RepliesOk, FlightOk, HistoryOk, ServedOk, Begun;
    QuietLinks(c, d, v, asks, replies);
  }

  lemma MovedLinks(c: Client, v: Server, asks: seq<Frame>, replies: seq<Frame>, d: Client, id: nat, stage: Stage)
    requires LinkOk(c, v, asks, replies) && id in c.calls
    requires Past(c, id) ==> stage != Numbered && stage != Listed
    requires !stage.Returned? || stage.answer.None?
    requires d == Moved(c, id, stage).(pending := d.pending)
    ensures LinkOk(d, v, asks, replies)
  {
    assert Quietly(c, d) && RepliesOk(d, v, replies);
    hide Quietly, RepliesOk, FlightOk, HistoryOk, ServedOk, Moved;
    QuietLinks(c, d, v, asks, replies);
  }

  lemma WokenLinks(c: Client, v: Server, asks: seq<Frame>, replies: seq<Frame>, id: nat)
    requires LinkOk(c, v, asks, replies) && CallAt(c, id, Waiting) && id in c.mailbox && |c.mailbox[id]| == 1
    ensures LinkOk(Woken(c, id), v, asks, replies)
  {
    var d := Woken(c, id);
    assert RepliesOk(d, v, replies) by {
      hide IsAnswer, FlightOk, HistoryOk, ServedOk;
    }
    assert Quietly(c, d);
    hide Quietly, RepliesOk, FlightOk, HistoryOk, ServedOk, Woken;
    QuietLinks(c, d, v, asks, replies);
  }

  lemma DeliveredLinks(c: Client, v: Server, asks: seq<Frame>, replies: seq<Frame>)
    requires LinkOk(c, v, asks, replies) && HasRoom(c)
    ensures LinkOk(Delivered(c), v, asks, replies)
  {
    var d := Delivered(c);
    assert Quietly(c, d) && RepliesOk(d, v, replies);
    hide Quietly, RepliesOk, FlightOk, HistoryOk, ServedOk, Delivered, HasRoom;
    QuietLinks(c, d, v, asks, replies);
  }

  lemma UnlistedLinks(c: Client, v: Server, asks: seq<Frame>, replies: seq<Frame>)
    requires LinkOk(c, v, asks, replies)
    ensures LinkOk(c.(pending := {}), v, asks, replies)
  {
    var d := c.(pending := {});
    assert Quietly(c, d) && RepliesOk(d, v, replies);
    hide Quietly, RepliesOk, FlightOk, HistoryOk, ServedOk;
    QuietLinks(c, d, v, asks, replies);
  }

  /** Writing a request. */
  lemma SentLinks(c: Client, v: Server, asks: seq<Frame>, replies: seq<Frame>, id: nat)
    requires LinkOk(c, v, asks, replies) && NumbersOk(c) && CallAt(c, id, Listed)
    ensures LinkOk(Sent(c, id, true), v, asks + [c.calls[id].frame], replies)
  {
    var d := Sent(c, id, true);
    SentFlight(c, v, asks, id);
    assert HistoryOk(d, v) by {
      hide RepliesOk, FlightOk, ServedOk;
    }
    assert RepliesOk(d, v, replies) by {
      hide FlightOk, HistoryOk, ServedOk, IsAnswer;
    }
    hide FlightOk, HistoryOk, ServedOk, RepliesOk, Sent;
  }

  lemma SentFlight(c: Client, v: Server, asks: seq<Frame>, id: nat)
    requires FlightOk(c, v, asks) && HistoryOk(c, v) && NumbersOk(c) && CallAt(c, id, Listed)
    ensures FlightOk(Sent(c, id, true), v, asks + [c.calls[id].frame])
  {
    assert !Past(c, id);
  }

  /** Reading a reply. */
  lemma TakenLinks(c: Client, v: Server, asks: seq<Frame>, replies: seq<Frame>, f: Frame)
    requires LinkOk(c, v, asks, replies) && replies != [] && replies[0] == f
    ensures LinkOk(Taken(c, f), v, asks, replies[1..])
  {
    var d := Taken(c, f);
    assert RepliesOk(d, v, replies[1..]) by {
      hide IsAnswer, FlightOk, HistoryOk, ServedOk;
    }
    assert FlightOk(d, v, asks) && HistoryOk(d, v) by {
      hide RepliesOk, ServedOk;
    }
    hide FlightOk, HistoryOk, ServedOk, RepliesOk, Taken;
  }

  // ---- the server's steps ----

  lemma AskedLinks(c: Client, v: Server, asks: seq<Frame>, replies: seq<Frame>, f: Frame, body: int, goes: bool)
    requires LinkOk(c, v, asks, replies) && QuotaOk(v) && asks != [] && asks[0] == f
    ensures LinkOk(c, Asked(v, f, body), asks[1..], if !TakesIn(v, f) && goes then replies + [InlineReply(v, f, body)] else replies)
  {
    assert f.id !in v.asked && f.id !in v.answers;
    AskedFlight(c, v, asks, f, body);
    AskedServed(v, f, body);
    AskedReplies(c, v, replies, f, body, goes);
    hide FlightOk, HistoryOk, ServedOk, RepliesOk;
  }

  lemma AskedFlight(c: Client, v: Server, asks: seq<Frame>, f: Frame, body: int)
    requires FlightOk(c, v, asks) && HistoryOk(c, v) && asks != [] && asks[0] == f
    ensures FlightOk(c, Asked(v, f, body), asks[1..]) && HistoryOk(c, Asked(v, f, body))
  {
    assert forall i :: 0 <= i < |asks| - 1 ==> asks[1..][i] == asks[i + 1];
    hide Past;
  }

  lemma AskedServed(v: Server, f: Frame, body: int)
    requires ServedOk(v) && QuotaOk(v) && f.id !in v.asked && f.id !in v.answers
    ensures ServedOk(Asked(v, f, body))
  {
    var w := Asked(v, f, body);
    forall n | n in w.tasks
      ensures ServedAt(w, w.tasks[n].request)
    {
      if n in v.tasks && n != v.nextTask {
        assert ServedAt(v, v.tasks[n].request);
      }
    }
    forall m, n | m in w.tasks && n in w.tasks && w.tasks[m].request.id == w.tasks[n].request.id
      ensures m == n
    {
      assert m in v.tasks ==> v.tasks[m].request.id != f.id;
      assert n in v.tasks ==> v.tasks[n].request.id != f.id;
    }
  }

  lemma AskedReplies(c: Client, v: Server, replies: seq<Frame>, f: Frame, body: int, goes: bool)
    requires RepliesOk(c, v, replies) && f.id !in v.answers
    ensures RepliesOk(c, Asked(v, f, body), if !TakesIn(v, f) && goes then replies + [InlineReply(v, f, body)] else replies)
  {
  }

  /** Handlers move on, their requests stay. */
  lemma WorkLinks(c: Client, v: Server, w: Server, asks: seq<Frame>, replies: seq<Frame>)
    requires LinkOk(c, v, asks, replies)
    requires w.asked == v.asked && w.answers == v.answers && w.tasks.Keys == v.tasks.Keys
    requires forall n :: n in v.tasks ==> w.tasks[n].request == v.tasks[n].request
    ensures LinkOk(c, w, asks, replies)
  {
    assert ServedOk(w) by {
      hide FlightOk, HistoryOk, RepliesOk;
    }
    assert FlightOk(c, w, asks) && HistoryOk(c, w) && RepliesOk(c, w, replies) by {
      hide ServedOk, Past;
    }
  }

  lemma AnsweredServed(v: Server, n: nat)
    requires ServedOk(v) && ReplyDue(v, n)
    ensures ServedOk(Answered(v, n))
  {
    var w := Answered(v, n);
    forall m | m in w.tasks
      ensures ServedAt(w, w.tasks[m].request)
    {
      assert ServedAt(v, v.tasks[m].request);
    }
  }

  lemma AnsweredReplies(c: Client, v: Server, replies: seq<Frame>, n: nat, goes: bool)
    requires RepliesOk(c, v, replies) && ReplyDue(v, n) && v.tasks[n].request.id !in v.answers
    ensures RepliesOk(c, Answered(v, n), if goes then replies + [ReplyOf(v, n)] else replies)
  {
    assert forall f :: IsAnswer(v, f) ==> IsAnswer(Answered(v, n), f);
    assert IsAnswer(Answered(v, n), ReplyOf(v, n));
    hide IsAnswer, Answered, ReplyOf;
  }

  lemma AnsweredLinks(c: Client, v: Server, asks: seq<Frame>, replies: seq<Frame>, n: nat, goes: bool)
    requires LinkOk(c, v, asks, replies) && ReplyDue(v, n)
    ensures LinkOk(c, Answered(v, n), asks, if goes then replies + [ReplyOf(v, n)] else replies)
  {
    assert ServedAt(v, v.tasks[n].request);
    AnsweredServed(v, n);
    AnsweredReplies(c, v, replies, n, goes);
    hide ServedOk, RepliesOk, Past;
  }

  // ---- keeping within the quota ----

  lemma {:induction false} DistinctFit(v: Server, ns: set<nat>, ids: set<nat>)
    requires forall n :: n in ns ==> n in v.tasks && v.tasks[n].request.id in ids
    requires forall m, n :: m in ns && n in ns && v.tasks[m].request.id == v.tasks[n].request.id ==> m == n
    ensures |ns| <= |ids|
    decreases |ns|
  {
    if ns != {} {
      var n :| n in ns;
      var id := v.tasks[n].request.id;
      DistinctFit(v, ns - {n}, ids - {id});
      assert ns == (ns - {n}) + {n} && ids == (ids - {id}) + {id};
    }
  }

  /** Quota is left for a dispatched request in flight. */
  lemma QuotaLeft(c: Client, v: Server, asks: seq<Frame>, replies: seq<Frame>, f: Frame)
    requires LinkOk(c, v, asks, replies) && ThriftOk(c, v, asks) && QuotaOk(v) && asks != [] && asks[0] == f && f.kind == Dispatched
    ensures v.held < v.cap
  {
    assert f.id in c.open && f.id !in v.asked;
    forall n | n in Holding(v)
      ensures n in v.tasks && v.tasks[n].request.id in c.open - {f.id}
    {
      assert ServedAt(v, v.tasks[n].request);
    }
    assert forall m, n :: m in Holding(v) && n in Holding(v) && v.tasks[m].request.id == v.tasks[n].request.id ==> m == n;
    hide FlightOk, HistoryOk, ServedOk, RepliesOk;
    DistinctFit(v, Holding(v), c.open - {f.id});
    assert c.open == (c.open - {f.id}) + {f.id};
  }

  /** Reading a request within the quota is never refused. */
  lemma AskedThrift(c: Client, v: Server, asks: seq<Frame>, replies: seq<Frame>, f: Frame, body: int)
    requires LinkOk(c, v, asks, replies) && ThriftOk(c, v, asks) && QuotaOk(v) && asks != [] && asks[0] == f
    ensures ThriftOk(c, Asked(v, f, body), asks[1..])
  {
    if f.kind == Dispatched {
      QuotaLeft(c, v, asks, replies, f);
    }
    hide LinkOk, QuotaOk;
    assert forall i :: 0 <= i < |asks| - 1 ==> asks[1..][i] == asks[i + 1];
  }

  lemma AnsweredThrift(c: Client, v: Server, asks: seq<Frame>, n: nat)
    requires ThriftOk(c, v, asks) && ReplyDue(v, n)
    ensures ThriftOk(c, Answered(v, n), asks)
  {
  }

  /** Reading a reply makes room: its request is neither in flight nor being served. */
  lemma TakenThrift(c: Client, v: Server, asks: seq<Frame>, f: Frame)
    requires FlightOk(c, v, asks) && HistoryOk(c, v) && ServedOk(v) && IsAnswer(v, f) && ThriftOk(c, v, asks)
    ensures ThriftOk(Taken(c, f), v, asks)
  {
    var d := Taken(c, f);
    assert d.open == c.open - {f.id};
    assert f.id in v.asked;
    assert |d.open| <= |c.open| by {
      OneLess(c.open, f.id);
    }
    forall n | n in v.tasks
      ensures v.tasks[n].request.id in d.open
    {
      assert ServedAt(v, v.tasks[n].request);
    }
    hide HistoryOk, ServedOk, Taken;
  }

  lemma OneLess(ids: set<nat>, id: nat)
    ensures |ids - {id}| <= |ids|
  {
    if id in ids {
      assert ids == (ids - {id}) + {id};
    } else {
      assert ids == ids - {id};
    }
  }

  // ---- the two sides together ----

  /** Two sessions and the two wires between them. */
  datatype Pair = Pair(left: Sess, right: Sess, toRight: seq<Frame>, toLeft: seq<Frame>)

  function Swap(p: Pair): Pair {
    Pair(p.right, p.left, p.toLeft, p.toRight)
  }

  predicate Reads(e: Event, f: Frame) {
    match e
    case ReadReply(g) => f == g
    case ReadRequest(g, _, _) => f == g
    case ReadOneWay(g) => f == g
    case _ => false
  }

  predicate IsRead(e: Event) {
    e.ReadReply? || e.ReadRequest? || e.ReadOneWay?
  }

  /** The sender's budget: at most cap dispatched requests written whose reply was not read. */
  predicate InBudget(s: Sess, cap: nat, e: Event) {
    Enabled(s, e) && e.Write? && Goes(s, e.ok) && s.client.calls[e.id].frame.kind == Dispatched ==> |s.client.open| < cap
  }

  /** A step of the left side: a read takes the first frame of its wire. */
  predicate CanMove(p: Pair, e: Event) {
    Enabled(p.left, e) && (IsRead(e) ==> p.toLeft != [] && Reads(e, p.toLeft[0]))
  }

  function Rest(w: seq<Frame>, e: Event): seq<Frame> {
    if IsRead(e) && w != [] then w[1..] else w
  }

  function Moves(p: Pair, e: Event): Pair
    requires CanMove(p, e)
  {
    Pair(After(p.left, e), p.right, p.toRight + Written(p.left, e), Rest(p.toLeft, e))
  }

  datatype Step = ByLeft(e: Event) | ByRight(e: Event)

  predicate CanStep(p: Pair, t: Step) {
    match t
    case ByLeft(e) => CanMove(p, e)
    case ByRight(e) => CanMove(Swap(p), e)
  }

  function Steps(p: Pair, t: Step): Pair
    requires CanStep(p, t)
  {
    match t
    case ByLeft(e) => Moves(p, e)
    case ByRight(e) => Swap(Moves(Swap(p), e))
  }

  ghost predicate LeftLinkOk(p: Pair) {
    LinkOk(p.left.client, p.right.server, Asking(p.toRight), Replying(p.toLeft))
  }

  ghost predicate PairOk(p: Pair) {
    SessionOk(p.left) && SessionOk(p.right) && LeftLinkOk(p) && LeftLinkOk(Swap(p))
  }

  lemma ClientWires(s: Sess, out: seq<Frame>, inc: seq<Frame>, e: Event)
    requires Enabled(s, e) && NumbersOk(s.client) && (IsRead(e) ==> inc != [] && Reads(e, inc[0]))
    ensures Asking(out + Written(s, e)) ==
      if e.Write? && Goes(s, e.ok) then Asking(out) + [s.client.calls[e.id].frame] else Asking(out)
    ensures e.ReadReply? ==> Replying(inc) != [] && Replying(inc)[0] == e.f && Replying(Rest(inc, e)) == Replying(inc)[1..]
    ensures !e.ReadReply? ==> Replying(Rest(inc, e)) == Replying(inc)
  {
    var w := Written(s, e);
    if w == [] {
      assert out + w == out;
    } else {
      WireAppend(out, w[0]);
      assert w == [w[0]];
    }
  }

  lemma ServerWires(s: Sess, out: seq<Frame>, inc: seq<Frame>, e: Event)
    requires Enabled(s, e) && NumbersOk(s.client) && (IsRead(e) ==> inc != [] && Reads(e, inc[0]))
    ensures e.ReadRequest? ==> Asking(inc) != [] && Asking(inc)[0] == e.f && Asking(Rest(inc, e)) == Asking(inc)[1..]
    ensures !e.ReadRequest? ==> Asking(Rest(inc, e)) == Asking(inc)
    ensures e.ReadRequest? ==> var goes := !TakesIn(s.server, e.f) && Goes(s, e.ok);
      Replying(out + Written(s, e)) == if goes then Replying(out) + [InlineReply(s.server, e.f, e.body)] else Replying(out)
    ensures e.Answer? ==> var goes := Goes(s, e.ok);
      Replying(out + Written(s, e)) == if goes then Replying(out) + [ReplyOf(s.server, e.n)] else Replying(out)
    ensures !e.ReadRequest? && !e.Answer? ==> Replying(out + Written(s, e)) == Replying(out)
  {
    var w := Written(s, e);
    if w == [] {
      assert out + w == out;
    } else {
      WireAppend(out, w[0]);
      assert w == [w[0]];
    }
  }

  /** A step seen from the side that asks. */
  lemma ClientLinks(s: Sess, v: Server, out: seq<Frame>, inc: seq<Frame>, e: Event)
    requires SessionOk(s) && Enabled(s, e) && (IsRead(e) ==> inc != [] && Reads(e, inc[0]))
    requires LinkOk(s.client, v, Asking(out), Replying(inc))
    ensures LinkOk(After(s, e).client, v, Asking(out + Written(s, e)), Replying(Rest(inc, e)))
  {
    ClientWires(s, out, inc, e);
    var c, asks, replies := s.client, Asking(out), Replying(inc);
    hide LinkOk, Asking, Replying, Written, QuotaOk, ClosingOk, PendingOk, ChannelsOk, NumbersOk, Rest;
    hide Begun, Taken, Delivered, Woken, Asked, HandlerDone, GivenBack, Answered;
    match e
    case Begin(kind, body) => BegunLinks(c, v, asks, replies, kind, body);
    case List(id) => MovedLinks(c, v, asks, replies, After(s, e).client, id, if Done(s) then Returned(None) else Listed);
    case Write(id, ok) =>
      if Goes(s, ok) {
        SentLinks(c, v, asks, replies, id);
      } else {
        MovedLinks(c, v, asks, replies, After(s, e).client, id, Leaving);
      }
    case Leave(id) => MovedLinks(c, v, asks, replies, After(s, e).client, id, Returned(None));
    case WakeAnswered(id) =>
      OneAtMost(c, id);
      WokenLinks(c, v, asks, replies, id);
    case WakeClosed(id) => MovedLinks(c, v, asks, replies, After(s, e).client, id, Returned(None));
    case Cancel(id) => MovedLinks(c, v, asks, replies, After(s, e).client, id, Leaving);
    case ReadReply(f) => TakenLinks(c, v, asks, replies, f);
    case Deliver => DeliveredLinks(c, v, asks, replies);
    case Clear => UnlistedLinks(c, v, asks, replies);
    case _ =>
  }

  lemma OneAtMost(c: Client, id: nat)
    requires ClientOk(c) && id in c.mailbox && c.mailbox[id] != []
    ensures |c.mailbox[id]| == 1
  {
    assert |c.mailbox[id]| <= c.puts[id] <= 1;
  }

  /** A step seen from the side that is asked. */
  lemma ServerLinks(s: Sess, c: Client, inc: seq<Frame>, out: seq<Frame>, e: Event)
    requires SessionOk(s) && Enabled(s, e) && (IsRead(e) ==> inc != [] && Reads(e, inc[0]))
    requires LinkOk(c, s.server, Asking(inc), Replying(out))
    ensures LinkOk(c, After(s, e).server, Asking(Rest(inc, e)), Replying(out + Written(s, e)))
  {
    ServerWires(s, out, inc, e);
    var v, asks, replies := s.server, Asking(inc), Replying(out);
    hide LinkOk, Asking, Replying, Written, QuotaOk, ClosingOk, ClientOk, Rest;
    hide Begun, Enlisted, Sent, Left, Moved, Taken, Delivered, Woken, Asked, Answered;
    match e
    case ReadRequest(f, body, ok) => AskedLinks(c, v, asks, replies, f, body, Goes(s, ok));
    case Answer(n, ok) => AnsweredLinks(c, v, asks, replies, n, Goes(s, ok));
    case _ => QuietServerLinks(s, c, asks, replies, e);
  }

  lemma QuietServer(s: Sess, e: Event)
    requires Enabled(s, e) && !e.ReadRequest? && !e.Answer?
    ensures var v, w := s.server, After(s, e).server;
      && w.asked == v.asked && w.answers == v.answers && w.cap == v.cap && w.tasks.Keys == v.tasks.Keys
      && forall n :: n in v.tasks ==> w.tasks[n].request == v.tasks[n].request
  {
    hide Begun, Enlisted, Sent, Left, Moved, Taken, Delivered, Woken, Asked, Answered;
  }

  lemma QuietServerLinks(s: Sess, c: Client, asks: seq<Frame>, replies: seq<Frame>, e: Event)
    requires Enabled(s, e) && !e.ReadRequest? && !e.Answer? && LinkOk(c, s.server, asks, replies)
    ensures LinkOk(c, After(s, e).server, asks, replies)
  {
    hide LinkOk, After;
    QuietServer(s, e);
    WorkLinks(c, s.server, After(s, e).server, asks, replies);
  }

  /** The asker's own steps keep it within the quota. */
  lemma ClientThrift(s: Sess, v: Server, out: seq<Frame>, inc: seq<Frame>, e: Event)
    requires SessionOk(s) && Enabled(s, e) && InBudget(s, v.cap, e) && (IsRead(e) ==> inc != [] && Reads(e, inc[0]))
    requires LinkOk(s.client, v, Asking(out), Replying(inc)) && ThriftOk(s.client, v, Asking(out))
    ensures ThriftOk(After(s, e).client, v, Asking(out + Written(s, e)))
  {
    ClientWires(s, out, inc, e);
    var c := s.client;
    if e.ReadReply? {
      TakenThrift(c, v, Asking(out), e.f);
    } else if e.Write? && Goes(s, e.ok) {
      hide LinkOk, Asking, Replying, Written;
    } else {
      hide LinkOk, Asking, Replying, Written, SessionOk, ThriftOk, Begun, Asked, HandlerDone, GivenBack, Answered;
      QuietClient(s, e);
      QuietClientThrift(c, After(s, e).client, v, Asking(out));
    }
  }

  lemma QuietClient(s: Sess, e: Event)
    requires Enabled(s, e) && !e.ReadReply? && !(e.Write? && Goes(s, e.ok))
    ensures After(s, e).client.open == s.client.open
  {
    hide Asked, HandlerDone, GivenBack, Answered;
  }

  lemma QuietClientThrift(c: Client, d: Client, v: Server, asks: seq<Frame>)
    requires ThriftOk(c, v, asks) && d.open == c.open
    ensures ThriftOk(d, v, asks)
  {
  }

  /** So do the asked side's steps, whatever it asks itself. */
  lemma ServerThrift(s: Sess, c: Client, inc: seq<Frame>, out: seq<Frame>, e: Event)
    requires SessionOk(s) && Enabled(s, e) && (IsRead(e) ==> inc != [] && Reads(e, inc[0]))
    requires LinkOk(c, s.server, Asking(inc), Replying(out)) && ThriftOk(c, s.server, Asking(inc))
    ensures ThriftOk(c, After(s, e).server, Asking(Rest(inc, e)))
  {
    ServerWires(s, out, inc, e);
    hide LinkOk, Asking, Replying, Written, ClosingOk, ClientOk, QuotaOk, Rest, ThriftOk;
    hide Begun, Enlisted, Sent, Left, Moved, Taken, Delivered, Woken, Asked, Answered;
    match e
    case ReadRequest(f, body, ok) => AskedThrift(c, s.server, Asking(inc), Replying(out), f, body);
    case Answer(n, ok) => AnsweredThrift(c, s.server, Asking(inc), n);
    case _ =>
      QuietServer(s, e);
      QuietServerThrift(c, s.server, After(s, e).server, Asking(inc));
  }

  lemma QuietServerThrift(c: Client, v: Server, w: Server, asks: seq<Frame>)
    requires ThriftOk(c, v, asks) && w.answers == v.answers && w.cap == v.cap && w.tasks.Keys == v.tasks.Keys
    requires forall n :: n in v.tasks ==> w.tasks[n].request == v.tasks[n].request
    ensures ThriftOk(c, w, asks)
  {
  }

  lemma MoveKeeps(p: Pair, e: Event)
    requires PairOk(p) && CanMove(p, e)
    ensures PairOk(Moves(p, e))
  {
    hide SessionOk, LinkOk, Asking, Replying, Written, Rest, After, Enabled, Reads;
    StepSession(p.left, e);
    ClientLinks(p.left, p.right.server, p.toRight, p.toLeft, e);
    ServerLinks(p.left, p.right.client, p.toLeft, p.toRight, e);
  }

  lemma StepKeeps(p: Pair, t: Step)
    requires PairOk(p) && CanStep(p, t)
    ensures PairOk(Steps(p, t))
  {
    hide PairOk, CanMove, Moves;
    match t
    case ByLeft(e) => MoveKeeps(p, e);
    case ByRight(e) =>
      SwapOk(p);
      MoveKeeps(Swap(p), e);
      SwapOk(Moves(Swap(p), e));
  }

  lemma SwapOk(p: Pair)
    requires PairOk(p)
    ensures PairOk(Swap(p))
  {
    hide SessionOk, LeftLinkOk;
    assert Swap(Swap(p)) == p;
  }

  ghost predicate IsPairRun(pairs: seq<Pair>, steps: seq<Step>) {
    && |pairs| == |steps| + 1
    && pairs[0] == Pair(Init(pairs[0].left.server.cap), Init(pairs[0].right.server.cap), [], [])
    && forall i :: 0 <= i < |steps| ==> CanStep(pairs[i], steps[i]) && pairs[i + 1] == Steps(pairs[i], steps[i])
  }

  lemma StartOk(l: nat, r: nat)
    ensures PairOk(Pair(Init(l), Init(r), [], []))
  {
    assert Holding(Init(l).server) == {};
    assert Holding(Init(r).server) == {};
  }

  lemma {:induction false} PairRunsStayOk(pairs: seq<Pair>, steps: seq<Step>, n: nat)
    requires IsPairRun(pairs, steps) && n < |pairs|
    ensures PairOk(pairs[n])
  {
    hide PairOk, CanStep, Steps, Init;
    if n == 0 {
      StartOk(pairs[0].left.server.cap, pairs[0].right.server.cap);
    } else {
      PairRunsStayOk(pairs, steps, n - 1);
      StepKeeps(pairs[n - 1], steps[n - 1]);
    }
  }

  // ---- correlation ----

  /** What Request returned is the one reply the peer produced for this very request. */
  ghost predicate AnsweredByPeer(c: Client, v: Server) {
    forall id :: id in c.calls && c.calls[id].stage.Returned? && c.calls[id].stage.answer.Some? ==>
      && id in v.asked && v.asked[id] == c.calls[id].frame
      && id in v.answers && v.answers[id] == c.calls[id].stage.answer.value
  }

  lemma ReplyGood(c: Client, v: Server, f: Frame)
    requires HistoryOk(c, v) && IsAnswer(v, f)
    ensures f.id in v.asked && f.id in c.calls && v.asked[f.id] == c.calls[f.id].frame
    ensures f.id in v.answers && v.answers[f.id] == f
  {
  }

  lemma ReturnedGood(s: Sess, v: Server, asks: seq<Frame>, replies: seq<Frame>)
    requires SessionOk(s) && LinkOk(s.client, v, asks, replies)
    ensures AnsweredByPeer(s.client, v)
  {
    hide FlightOk, ServedOk, HistoryOk, IsAnswer, NumbersOk, PendingOk, QuotaOk, ClosingOk;
    var c := s.client;
    forall id | id in c.calls && c.calls[id].stage.Returned? && c.calls[id].stage.answer.Some?
      ensures id in v.asked && v.asked[id] == c.calls[id].frame
      ensures id in v.answers && v.answers[id] == c.calls[id].stage.answer.value
    {
      ReplyGood(c, v, c.calls[id].stage.answer.value);
    }
  }

  /** Over every run of two joined sessions, whatever either sends, every Request that returns a frame returns the
      reply its peer produced for this very request. */
  lemma RepliesMatchRequests(pairs: seq<Pair>, steps: seq<Step>, n: nat)
    requires IsPairRun(pairs, steps) && n < |pairs|
    ensures AnsweredByPeer(pairs[n].left.client, pairs[n].right.server)
    ensures AnsweredByPeer(pairs[n].right.client, pairs[n].left.server)
  {
    PairRunsStayOk(pairs, steps, n);
    var p := pairs[n];
    hide IsPairRun, SessionOk, LinkOk, AnsweredByPeer, Asking, Replying;
    ReturnedGood(p.left, p.right.server, Asking(p.toRight), Replying(p.toLeft));
    ReturnedGood(p.right, p.left.server, Asking(p.toLeft), Replying(p.toRight));
  }

  // ---- the left side is never told busy ----

  /** The left side's step, if it is one, keeps within the right side's quota. */
  predicate LeftInBudget(p: Pair, t: Step) {
    t.ByLeft? ==> InBudget(p.left, p.right.server.cap, t.e)
  }

  ghost predicate LeftThrifty(p: Pair) {
    ThriftOk(p.left.client, p.right.server, Asking(p.toRight))
  }

  lemma LeftStepThrifty(p: Pair, t: Step)
    requires PairOk(p) && LeftThrifty(p) && CanStep(p, t) && LeftInBudget(p, t)
    ensures LeftThrifty(Steps(p, t))
  {
    hide SessionOk, LinkOk, ThriftOk, Asking, Replying, Written, Rest, After, Enabled, Reads, InBudget;
    match t
    case ByLeft(e) => ClientThrift(p.left, p.right.server, p.toRight, p.toLeft, e);
    case ByRight(e) => ServerThrift(p.right, p.left.client, p.toRight, p.toLeft, e);
  }

  lemma {:induction false} LeftRunsThrifty(pairs: seq<Pair>, steps: seq<Step>, n: nat)
    requires IsPairRun(pairs, steps) && n < |pairs| && forall i :: 0 <= i < n ==> LeftInBudget(pairs[i], steps[i])
    ensures LeftThrifty(pairs[n])
  {
    if n > 0 {
      hide PairOk, CanStep, Steps, Init, LeftThrifty, LeftInBudget;
      LeftRunsThrifty(pairs, steps, n - 1);
      PairRunsStayOk(pairs, steps, n - 1);
      LeftStepThrifty(pairs[n - 1], steps[n - 1]);
    }
  }

  lemma {:induction false} RepliesAreOnWire(w: seq<Frame>, i: nat)
    requires i < |w| && w[i].reply
    ensures w[i] in Replying(w)
  {
    if i > 0 {
      RepliesAreOnWire(w[1..], i - 1);
    }
  }

  /** No reply on the wire says busy. */
  ghost predicate NoneBusy(w: seq<Frame>) {
    forall i :: 0 <= i < |w| && w[i].reply ==> !w[i].busy
  }

  /** No Request returned a refusal. */
  ghost predicate NoneRefused(c: Client) {
    forall id :: id in c.calls && c.calls[id].stage.Returned? && c.calls[id].stage.answer.Some? ==>
      !c.calls[id].stage.answer.value.busy
  }

  lemma ThriftyIsServed(c: Client, v: Server, asks: seq<Frame>, inc: seq<Frame>)
    requires LinkOk(c, v, asks, Replying(inc)) && ThriftOk(c, v, asks)
    ensures NoneBusy(inc) && NoneRefused(c)
  {
    hide FlightOk, ServedOk, HistoryOk, Replying;
    forall i | 0 <= i < |inc| && inc[i].reply
      ensures !inc[i].busy
    {
      RepliesAreOnWire(inc, i);
      assert IsAnswer(v, inc[i]);
    }
    forall id | id in c.calls && c.calls[id].stage.Returned? && c.calls[id].stage.answer.Some?
      ensures !c.calls[id].stage.answer.value.busy
    {
      assert IsAnswer(v, c.calls[id].stage.answer.value);
    }
  }

  /** Over every run in which the left side keeps at most the right side's quota of dispatched requests unanswered, it is
      never told busy, even where the right side floods it. */
  lemma NeverBusy(pairs: seq<Pair>, steps: seq<Step>, n: nat)
    requires IsPairRun(pairs, steps) && n < |pairs| && forall i :: 0 <= i < n ==> LeftInBudget(pairs[i], steps[i])
    ensures NoneBusy(pairs[n].toLeft) && NoneRefused(pairs[n].left.client)
  {
    PairRunsStayOk(pairs, steps, n);
    LeftRunsThrifty(pairs, steps, n);
    var p := pairs[n];
    hide IsPairRun, SessionOk, LinkOk, ThriftOk, NoneBusy, NoneRefused, Asking, Replying;
    ThriftyIsServed(p.left.client, p.right.server, Asking(p.toRight), p.toLeft);
  }

  // ---- and so is the right side: the two are alike ----

  function Mirror(t: Step): Step {
    match t case ByLeft(e) => ByRight(e) case ByRight(e) => ByLeft(e)
  }

  lemma MirrorStep(p: Pair, t: Step)
    requires CanStep(p, t)
    ensures CanStep(Swap(p), Mirror(t)) && Steps(Swap(p), Mirror(t)) == Swap(Steps(p, t))
  {
    assert Swap(Swap(p)) == p;
  }

  /** A run seen from the other side is a run: what holds of every left side holds of every right side. */
  lemma MirrorRun(pairs: seq<Pair>, steps: seq<Step>)
    requires IsPairRun(pairs, steps)
    ensures IsPairRun(seq(|pairs|, i requires 0 <= i < |pairs| => Swap(pairs[i])), seq(|steps|, i requires 0 <= i < |steps| => Mirror(steps[i])))
  {
    hide CanStep, Steps, Init, Mirror;
    forall i | 0 <= i < |steps|
      ensures CanStep(Swap(pairs[i]), Mirror(steps[i])) && Swap(pairs[i + 1]) == Steps(Swap(pairs[i]), Mirror(steps[i]))
    {
      MirrorStep(pairs[i], steps[i]);
    }
  }

  lemma NeverBusyRight(pairs: seq<Pair>, steps: seq<Step>, n: nat)
    requires IsPairRun(pairs, steps) && n < |pairs|
    requires forall i :: 0 <= i < n ==> LeftInBudget(Swap(pairs[i]), Mirror(steps[i]))
    ensures NoneBusy(pairs[n].toRight) && NoneRefused(pairs[n].right.client)
  {
    var seen, said := seq(|pairs|, i requires 0 <= i < |pairs| => Swap(pairs[i])), seq(|steps|, i requires 0 <= i < |steps| => Mirror(steps[i]));
    MirrorRun(pairs, steps);
    hide IsPairRun, NoneBusy, NoneRefused, LeftInBudget, Mirror;
    NeverBusy(seen, said, n);
  }
}
