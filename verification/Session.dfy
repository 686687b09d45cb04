// The session engine of loader/remote/session.go as atomic steps. Every section that runs under the
// session's mutex, every channel operation and every write is one step; goroutines interleave freely.
module Session {
  import opened Text

  /** Dispatched stands for call_func, tool, hook, apply_config and host_call. */
  datatype Kind = Dispatched | Subscribe | Ping | PushEvent | Shutdown | OtherKind

  /** busy marks the refusal of an exhausted dispatch quota; body stands for everything else in the frame. */
  datatype Frame = Frame(id: nat, reply: bool, kind: Kind, busy: bool, body: int)

  /** How far a Request call has come: numbered, listed in pending, written and waiting, about to unlist itself, returned. */
  datatype Stage = Numbered | Listed | Waiting | Leaving | Returned(answer: Option<Frame>)

  datatype Call = Call(frame: Frame, stage: Stage)

  /** The requesting half: id counter, calls, the pending map, the reply channels, and the frame the receive loop
      holds between takePending and the channel. taken, puts and open are history: ids taken from pending by a reply,
      frames put per channel, dispatched requests written whose reply was not read yet. */
  datatype Client = Client(
    nextId: nat,
    calls: map<nat, Call>,
    pending: set<nat>,
    mailbox: map<nat, seq<Frame>>,
    hand: Option<Frame>,
    taken: set<nat>,
    puts: multiset<nat>,
    open: set<nat>)

  /** A dispatched request: its handler runs, has finished, or its quota is given back and the reply is due. */
  datatype Work = Running | Finished(body: int) | Released(body: int)

  datatype Task = Task(request: Frame, work: Work)

  /** The serving half. asked and answers are history: the requests read and the replies produced for them. */
  datatype Server = Server(
    tasks: map<nat, Task>,
    nextTask: nat,
    held: nat,
    cap: nat,
    peerSet: bool,
    asked: map<nat, Frame>,
    answers: map<nat, Frame>)

  /** closeWith: not yet, done closed, critical section left, callbacks run. */
  datatype Closing = NotYet | Signalled | Cleared | Notified

  datatype Sess = Sess(client: Client, server: Server, reading: bool, closing: Closing, notifications: nat)

  function Init(cap: nat): Sess {
    Sess(Client(0, map[], {}, map[], None, {}, multiset{}, {}), Server(map[], 0, 0, cap, false, map[], map[]), true, NotYet, 0)
  }

  predicate Done(s: Sess) {
    s.closing != NotYet
  }

  predicate StreamClosed(s: Sess) {
    s.closing == Cleared || s.closing == Notified
  }

  // ---- the requesting half ----

  predicate CallAt(c: Client, id: nat, stage: Stage) {
    id in c.calls && c.calls[id].stage == stage
  }

  function Moved(c: Client, id: nat, stage: Stage): Client
    requires id in c.calls
  {
    c.(calls := c.calls[id := c.calls[id].(stage := stage)])
  }

  /** Request takes a number and makes its channel. */
  function Begun(c: Client, kind: Kind, body: int): Client {
    var id := c.nextId + 1;
    c.(nextId := id, calls := c.calls[id := Call(Frame(id, false, kind, false, body), Numbered)], mailbox := c.mailbox[id := []])
  }

  /** Request's first critical section: refused once done is closed, else listed. */
  function Enlisted(c: Client, id: nat, done: bool): Client
    requires CallAt(c, id, Numbered)
  {
    if done then Moved(c, id, Returned(None)) else Moved(c, id, Listed).(pending := c.pending + {id})
  }

  /** The request frame is written, or not. */
  function Sent(c: Client, id: nat, goes: bool): Client
    requires CallAt(c, id, Listed)
  {
    if !goes then Moved(c, id, Leaving)
    else Moved(c, id, Waiting).(open := if c.calls[id].frame.kind == Dispatched then c.open + {id} else c.open)
  }

  /** A failed or cancelled Request deletes its entry and returns. */
  function Left(c: Client, id: nat): Client
    requires CallAt(c, id, Leaving)
  {
    Moved(c, id, Returned(None)).(pending := c.pending - {id})
  }

  function Woken(c: Client, id: nat): Client
    requires CallAt(c, id, Waiting) && id in c.mailbox && c.mailbox[id] != []
  {
    Moved(c, id, Returned(Some(c.mailbox[id][0]))).(mailbox := c.mailbox[id := c.mailbox[id][1..]])
  }

  /** The receive loop reads a reply: takePending. */
  function Taken(c: Client, f: Frame): Client {
    var c1 := c.(open := c.open - {f.id});
    if f.id in c.pending then c1.(pending := c.pending - {f.id}, taken := c.taken + {f.id}, hand := Some(f)) else c1
  }

  /** A reply channel holds one frame: putting into a full one would block. */
  predicate HasRoom(c: Client) {
    c.hand.Some? && c.hand.value.id in c.mailbox && |c.mailbox[c.hand.value.id]| < 1
  }

  function Delivered(c: Client): Client
    requires HasRoom(c)
  {
    var f := c.hand.value;
    c.(mailbox := c.mailbox[f.id := c.mailbox[f.id] + [f]], hand := None, puts := c.puts + multiset{f.id})
  }

  // ---- the serving half ----

  function ReplyTo(request: Frame, busy: bool, body: int): Frame {
    Frame(request.id, true, OtherKind, busy, body)
  }

  /** dispatchAsync takes a request in when a peer is set and quota is left. */
  predicate TakesIn(v: Server, f: Frame) {
    f.kind == Dispatched && v.peerSet && v.held < v.cap
  }

  /** The reply the receive loop writes itself: no peer yet, quota exhausted, subscribe, ping, unsupported. */
  function InlineReply(v: Server, f: Frame, body: int): Frame {
    ReplyTo(f, f.kind == Dispatched && v.peerSet, body)
  }

  function Asked(v: Server, f: Frame, body: int): Server {
    if TakesIn(v, f) then
      v.(asked := v.asked[f.id := f], tasks := v.tasks[v.nextTask := Task(f, Running)], nextTask := v.nextTask + 1, held := v.held + 1)
    else v.(asked := v.asked[f.id := f], answers := v.answers[f.id := InlineReply(v, f, body)])
  }

  predicate TaskAt(v: Server, n: nat, w: Work) {
    n in v.tasks && v.tasks[n].work == w
  }

  function HandlerDone(v: Server, n: nat, body: int): Server
    requires TaskAt(v, n, Running)
  {
    v.(tasks := v.tasks[n := v.tasks[n].(work := Finished(body))])
  }

  /** The quota goes back before the reply is written. */
  function GivenBack(v: Server, n: nat): Server
    requires n in v.tasks && v.tasks[n].work.Finished? && v.held > 0
  {
    v.(tasks := v.tasks[n := v.tasks[n].(work := Released(v.tasks[n].work.body))], held := v.held - 1)
  }

  predicate ReplyDue(v: Server, n: nat) {
    n in v.tasks && v.tasks[n].work.Released?
  }

  function ReplyOf(v: Server, n: nat): Frame
    requires ReplyDue(v, n)
  {
    ReplyTo(v.tasks[n].request, false, v.tasks[n].work.body)
  }

  function Answered(v: Server, n: nat): Server
    requires ReplyDue(v, n)
  {
    v.(tasks := v.tasks - {n}, answers := v.answers[v.tasks[n].request.id := ReplyOf(v, n)])
  }

  // ---- steps ----

  datatype Event =
    | Begin(kind: Kind, body: int)
    | List(id: nat)
    | Write(id: nat, ok: bool)
    | Leave(id: nat)
    | WakeAnswered(id: nat)
    | WakeClosed(id: nat)
    | Cancel(id: nat)
    | ReadReply(f: Frame)
    | Deliver
    | ReadRequest(f: Frame, body: int, ok: bool)
    | ReadOneWay(f: Frame)
    | ReadFails
    | Finish(n: nat, body: int)
    | Release(n: nat)
    | Answer(n: nat, ok: bool)
    | Push(f: Frame, ok: bool)
    | SetPeer
    | Signal
    | Clear
    | Notify

  /** The receive loop is at its read. */
  predicate AtRead(s: Sess) {
    s.reading && s.client.hand.None?
  }

  predicate Enabled(s: Sess, e: Event) {
    match e
    case Begin(_, _) => true
    case List(id) => CallAt(s.client, id, Numbered)
    case Write(id, ok) => CallAt(s.client, id, Listed)
    case Leave(id) => CallAt(s.client, id, Leaving)
    case WakeAnswered(id) => CallAt(s.client, id, Waiting) && id in s.client.mailbox && s.client.mailbox[id] != []
    case WakeClosed(id) => CallAt(s.client, id, Waiting) && Done(s)
    case Cancel(id) => CallAt(s.client, id, Waiting)
    case ReadReply(f) => AtRead(s) && f.reply
    case Deliver => HasRoom(s.client)
    case ReadRequest(f, _, _) => AtRead(s) && !f.reply && f.id != 0
    case ReadOneWay(f) => AtRead(s) && !f.reply && f.id == 0
    case ReadFails => AtRead(s)
    case Finish(n, _) => TaskAt(s.server, n, Running)
    case Release(n) => n in s.server.tasks && s.server.tasks[n].work.Finished? && s.server.held > 0
    case Answer(n, ok) => ReplyDue(s.server, n)
    case Push(f, ok) => f.id == 0 && !f.reply
    case SetPeer => true
    case Signal => s.closing == NotYet
    case Clear => s.closing == Signalled
    case Notify => s.closing == Cleared
  }

  /** A write can fail, and fails for sure once the stream is closed. */
  predicate Goes(s: Sess, ok: bool) {
    ok && !StreamClosed(s)
  }

  function After(s: Sess, e: Event): Sess
    requires Enabled(s, e)
  {
    match e
    case Begin(kind, body) => s.(client := Begun(s.client, kind, body))
    case List(id) => s.(client := Enlisted(s.client, id, Done(s)))
    case Write(id, ok) => s.(client := Sent(s.client, id, Goes(s, ok)))
    case Leave(id) => s.(client := Left(s.client, id))
    case WakeAnswered(id) => s.(client := Woken(s.client, id))
    case WakeClosed(id) => s.(client := Moved(s.client, id, Returned(None)))
    case Cancel(id) => s.(client := Moved(s.client, id, Leaving))
    case ReadReply(f) => s.(client := Taken(s.client, f))
    case Deliver => s.(client := Delivered(s.client))
    case ReadRequest(f, body, ok) => s.(server := Asked(s.server, f, body))
    case ReadOneWay(f) => if f.kind == Shutdown then s.(reading := false) else s
    case ReadFails => s.(reading := false)
    case Finish(n, body) => s.(server := HandlerDone(s.server, n, body))
    case Release(n) => s.(server := GivenBack(s.server, n))
    case Answer(n, ok) => s.(server := Answered(s.server, n))
    case Push(f, ok) => s
    case SetPeer => s.(server := s.server.(peerSet := true))
    case Signal => s.(closing := Signalled)
    case Clear => s.(closing := Cleared, client := s.client.(pending := {}))
    case Notify => s.(closing := Notified, notifications := s.notifications + 1)
  }

  /** What a step writes. */
  function Written(s: Sess, e: Event): seq<Frame>
    requires Enabled(s, e)
  {
    match e
    case Write(id, ok) => if Goes(s, ok) then [s.client.calls[id].frame] else []
    case ReadRequest(f, body, ok) => if !TakesIn(s.server, f) && Goes(s, ok) then [InlineReply(s.server, f, body)] else []
    case Answer(n, ok) => if Goes(s, ok) then [ReplyOf(s.server, n)] else []
    case Push(f, ok) => if Goes(s, ok) then [f] else []
    case _ => []
  }

  // ---- invariants of one session, whatever its peer sends ----

  ghost predicate NumbersOk(c: Client) {
    && (forall id :: id in c.calls ==> 1 <= id <= c.nextId && id in c.mailbox)
    && (forall id :: id in c.calls ==> c.calls[id].frame.id == id && !c.calls[id].frame.reply && !c.calls[id].frame.busy)
  }

  /** An id is in pending only between listing and leaving, and before its reply is taken. */
  ghost predicate PendingOk(c: Client) {
    && c.pending !! c.taken
    && (forall id :: id in c.pending || id in c.taken ==> id in c.calls && c.calls[id].stage != Numbered)
    && (forall id :: id in c.mailbox && c.mailbox[id] != [] ==> id in c.taken)
    && (forall id :: id in c.open ==> id in c.calls && c.calls[id].stage != Numbered && c.calls[id].stage != Listed)
  }

  /** A reply channel gets one frame at most, and its own: it was taken from pending, then is in the hand or was put. */
  ghost predicate ChannelsOk(c: Client) {
    && (c.hand.Some? ==> c.hand.value.id in c.taken && c.puts[c.hand.value.id] == 0)
    && (forall id :: c.puts[id] <= 1 && (c.puts[id] == 1 ==> id in c.taken))
    && (forall id :: id in c.mailbox ==> |c.mailbox[id]| <= c.puts[id])
    && (forall id :: id in c.mailbox && c.mailbox[id] != [] ==> c.mailbox[id][0].id == id)
    && (forall id :: id in c.calls && c.calls[id].stage.Returned? && c.calls[id].stage.answer.Some? ==>
          c.calls[id].stage.answer.value.id == id)
  }

  ghost predicate ClientOk(c: Client) {
    NumbersOk(c) && PendingOk(c) && ChannelsOk(c)
  }

  ghost function Holding(v: Server): set<nat> {
    set n | n in v.tasks && !v.tasks[n].work.Released?
  }

  /** The quota held is the number of requests still executing, and within the limit. */
  ghost predicate QuotaOk(v: Server) {
    && v.held == |Holding(v)| && v.held <= v.cap
    && (forall n :: n in v.tasks ==> n < v.nextTask)
  }

  ghost predicate ClosingOk(s: Sess) {
    && s.notifications == (if s.closing == Notified then 1 else 0)
    && (StreamClosed(s) ==> s.client.pending == {})
  }

  ghost predicate SessionOk(s: Sess) {
    ClientOk(s.client) && QuotaOk(s.server) && ClosingOk(s)
  }

  lemma BegunChannels(c: Client, kind: Kind, body: int)
    requires NumbersOk(c) && PendingOk(c) && ChannelsOk(c)
    ensures ChannelsOk(Begun(c, kind, body))
  {
  }

  lemma BegunPending(c: Client, kind: Kind, body: int)
    requires NumbersOk(c) && PendingOk(c)
    ensures PendingOk(Begun(c, kind, body))
  {
  }

  lemma BegunOk(c: Client, kind: Kind, body: int)
    requires ClientOk(c)
    ensures ClientOk(Begun(c, kind, body))
  {
    BegunChannels(c, kind, body);
    BegunPending(c, kind, body);
    hide ChannelsOk, PendingOk;
  }

  lemma EnlistedChannels(c: Client, id: nat, done: bool)
    requires NumbersOk(c) && PendingOk(c) && ChannelsOk(c) && CallAt(c, id, Numbered)
    ensures ChannelsOk(Enlisted(c, id, done))
  {
  }

  lemma EnlistedPending(c: Client, id: nat, done: bool)
    requires NumbersOk(c) && PendingOk(c) && CallAt(c, id, Numbered)
    ensures PendingOk(Enlisted(c, id, done))
  {
  }

  lemma EnlistedOk(c: Client, id: nat, done: bool)
    requires ClientOk(c) && CallAt(c, id, Numbered)
    ensures ClientOk(Enlisted(c, id, done))
  {
    EnlistedChannels(c, id, done);
    EnlistedPending(c, id, done);
    hide ChannelsOk, PendingOk;
  }

  lemma SentChannels(c: Client, id: nat, goes: bool)
    requires NumbersOk(c) && PendingOk(c) && ChannelsOk(c) && CallAt(c, id, Listed)
    ensures ChannelsOk(Sent(c, id, goes))
  {
  }

  lemma SentPending(c: Client, id: nat, goes: bool)
    requires NumbersOk(c) && PendingOk(c) && CallAt(c, id, Listed)
    ensures PendingOk(Sent(c, id, goes))
  {
  }

  lemma SentOk(c: Client, id: nat, goes: bool)
    requires ClientOk(c) && CallAt(c, id, Listed)
    ensures ClientOk(Sent(c, id, goes))
  {
    SentChannels(c, id, goes);
    SentPending(c, id, goes);
    hide ChannelsOk, PendingOk;
  }

  lemma LeftOk(c: Client, id: nat)
    requires ClientOk(c) && CallAt(c, id, Leaving)
    ensures ClientOk(Left(c, id))
  {
  }

  lemma WokenOk(c: Client, id: nat)
    requires ClientOk(c) && CallAt(c, id, Waiting) && id in c.mailbox && c.mailbox[id] != []
    ensures ClientOk(Woken(c, id))
  {
  }

  lemma MovedOk(c: Client, id: nat, stage: Stage)
    requires ClientOk(c) && CallAt(c, id, Waiting) && (stage == Returned(None) || stage == Leaving)
    ensures ClientOk(Moved(c, id, stage))
  {
  }

  lemma TakenOk(c: Client, f: Frame)
    requires ClientOk(c) && c.hand.None?
    ensures ClientOk(Taken(c, f))
  {
  }

  lemma DeliveredOk(c: Client)
    requires ClientOk(c) && HasRoom(c)
    ensures ClientOk(Delivered(c))
  {
  }

  lemma AskedOk(v: Server, f: Frame, body: int)
    requires QuotaOk(v)
    ensures QuotaOk(Asked(v, f, body))
  {
    if TakesIn(v, f) {
      assert Holding(Asked(v, f, body)) == Holding(v) + {v.nextTask};
    }
  }

  lemma HandlerDoneOk(v: Server, n: nat, body: int)
    requires QuotaOk(v) && TaskAt(v, n, Running)
    ensures QuotaOk(HandlerDone(v, n, body))
  {
    assert Holding(HandlerDone(v, n, body)) == Holding(v);
  }

  lemma GivenBackOk(v: Server, n: nat)
    requires QuotaOk(v) && n in v.tasks && v.tasks[n].work.Finished? && v.held > 0
    ensures QuotaOk(GivenBack(v, n))
  {
    assert Holding(v) == Holding(GivenBack(v, n)) + {n};
  }

  lemma AnsweredOk(v: Server, n: nat)
    requires QuotaOk(v) && ReplyDue(v, n)
    ensures QuotaOk(Answered(v, n))
  {
    assert Holding(Answered(v, n)) == Holding(v);
  }

  lemma StepClient(s: Sess, e: Event)
    requires ClientOk(s.client) && Enabled(s, e)
    ensures ClientOk(After(s, e).client)
  {
    hide ClientOk, Begun, Enlisted, Sent, Left, Woken, Moved, Taken, Delivered, Asked, HandlerDone, GivenBack, Answered;
    match e
    case Begin(kind, body) => BegunOk(s.client, kind, body);
    case List(id) => EnlistedOk(s.client, id, Done(s));
    case Write(id, ok) => SentOk(s.client, id, Goes(s, ok));
    case Leave(id) => LeftOk(s.client, id);
    case WakeAnswered(id) => WokenOk(s.client, id);
    case WakeClosed(id) => MovedOk(s.client, id, Returned(None));
    case Cancel(id) => MovedOk(s.client, id, Leaving);
    case ReadReply(f) => TakenOk(s.client, f);
    case Deliver => DeliveredOk(s.client);
    case Clear => ClearedOk(s.client);
    case _ =>
  }

  lemma ClearedOk(c: Client)
    requires ClientOk(c)
    ensures ClientOk(c.(pending := {}))
  {
  }

  lemma StepServer(s: Sess, e: Event)
    requires QuotaOk(s.server) && Enabled(s, e)
    ensures QuotaOk(After(s, e).server)
  {
    hide QuotaOk, Begun, Enlisted, Sent, Left, Woken, Moved, Taken, Delivered, Asked, HandlerDone, GivenBack, Answered;
    match e
    case ReadRequest(f, body, ok) => AskedOk(s.server, f, body);
    case Finish(n, body) => HandlerDoneOk(s.server, n, body);
    case Release(n) => GivenBackOk(s.server, n);
    case Answer(n, ok) => AnsweredOk(s.server, n);
    case SetPeer => PeerSetOk(s.server);
    case _ =>
  }

  lemma PeerSetOk(v: Server)
    requires QuotaOk(v)
    ensures QuotaOk(v.(peerSet := true))
  {
    assert Holding(v.(peerSet := true)) == Holding(v);
  }

  lemma StepClosing(s: Sess, e: Event)
    requires ClosingOk(s) && Enabled(s, e)
    ensures ClosingOk(After(s, e))
  {
    hide Asked, HandlerDone, GivenBack, Answered;
    assert forall id, stage :: id in s.client.calls ==> Moved(s.client, id, stage).pending == s.client.pending;
  }

  lemma StepSession(s: Sess, e: Event)
    requires SessionOk(s) && Enabled(s, e)
    ensures SessionOk(After(s, e))
  {
    hide ClientOk, QuotaOk, ClosingOk, After;
    StepClient(s, e);
    StepServer(s, e);
    StepClosing(s, e);
  }

  ghost predicate IsRun(states: seq<Sess>, events: seq<Event>) {
    && |states| == |events| + 1 && states[0] == Init(states[0].server.cap)
    && forall i :: 0 <= i < |events| ==> Enabled(states[i], events[i]) && states[i + 1] == After(states[i], events[i])
  }

  /** Over all interleavings and whatever the peer sends the session stays in order. */
  lemma {:induction false} RunsStayOk(states: seq<Sess>, events: seq<Event>, n: nat)
    requires IsRun(states, events) && n < |states|
    ensures SessionOk(states[n])
  {
    if n == 0 {
      assert Holding(states[0].server) == {};
    } else {
      RunsStayOk(states, events, n - 1);
      hide SessionOk, After;
      StepSession(states[n - 1], events[n - 1]);
    }
  }

  /** The next number was never used. */
  lemma NextIsFresh(c: Client)
    requires ClientOk(c)
    ensures c.nextId + 1 !in c.calls && c.nextId + 1 !in c.pending
  {
  }

  /** A reply waiting in a channel answers that channel's request, and is the only one. */
  lemma ChannelHoldsItsOwn(c: Client, id: nat)
    requires ClientOk(c) && id in c.mailbox && c.mailbox[id] != []
    ensures c.mailbox[id][0].id == id && |c.mailbox[id]| == 1 && id !in c.pending
  {
    assert |c.mailbox[id]| <= c.puts[id] <= 1;
  }

  /** The frame in the receive loop's hand has room in its channel. */
  lemma RoomForHand(s: Sess)
    requires ClientOk(s.client) && s.client.hand.Some?
    ensures HasRoom(s.client) && s.client.mailbox[s.client.hand.value.id] == []
  {
    var c := s.client;
    assert c.hand.value.id in c.calls;
  }

  /** A finished handler holds quota to give back. */
  lemma QuotaToGiveBack(s: Sess, n: nat)
    requires QuotaOk(s.server) && n in s.server.tasks && s.server.tasks[n].work.Finished?
    ensures s.server.held > 0
  {
    assert n in Holding(s.server);
  }

  /** The receive loop never blocks on a reply channel, no channel gets a second frame, a Request returns a frame of its
      own id, onClosed runs at most once, and a finished handler finds its quota to give back. */
  lemma NothingBlocksOrRepeats(states: seq<Sess>, events: seq<Event>, n: nat)
    requires IsRun(states, events) && n < |states|
    ensures states[n].client.hand.Some? ==> HasRoom(states[n].client)
    ensures forall id :: states[n].client.puts[id] <= 1
    ensures forall id, f :: CallAt(states[n].client, id, Returned(Some(f))) ==> f.id == id
    ensures states[n].notifications <= 1
    ensures states[n].server.held == |Holding(states[n].server)| <= states[n].server.cap
    ensures forall t :: t in states[n].server.tasks && states[n].server.tasks[t].work.Finished? ==> states[n].server.held > 0
  {
    RunsStayOk(states, events, n);
    forall t | t in states[n].server.tasks && states[n].server.tasks[t].work.Finished?
      ensures states[n].server.held > 0
    {
      QuotaToGiveBack(states[n], t);
    }
    if states[n].client.hand.Some? {
      RoomForHand(states[n]);
    }
  }

  lemma StepStaysClosed(s: Sess, e: Event)
    requires Enabled(s, e) && StreamClosed(s)
    ensures StreamClosed(After(s, e))
  {
    hide Begun, Enlisted, Sent, Left, Woken, Moved, Taken, Delivered, Asked, HandlerDone, GivenBack, Answered;
  }

  lemma {:induction false} StaysClosed(states: seq<Sess>, events: seq<Event>, m: nat, n: nat)
    requires IsRun(states, events) && m <= n < |states| && StreamClosed(states[m])
    ensures StreamClosed(states[n])
  {
    hide After, Enabled, Init, StreamClosed;
    if m < n {
      StaysClosed(states, events, m, n - 1);
      StepStaysClosed(states[n - 1], events[n - 1]);
    }
  }

  /** Once closeWith has left its critical section, pending is empty for good. */
  lemma PendingStaysEmpty(states: seq<Sess>, events: seq<Event>, m: nat, n: nat)
    requires IsRun(states, events) && m <= n < |states| && StreamClosed(states[m])
    ensures states[n].client.pending == {}
  {
    StaysClosed(states, events, m, n);
    RunsStayOk(states, events, n);
    hide ClientOk, QuotaOk, IsRun;
  }

  /** A busy reply goes out exactly when as many requests execute as the quota allows. */
  lemma BusyMeansFull(s: Sess, f: Frame, body: int, ok: bool)
    requires QuotaOk(s.server) && Enabled(s, ReadRequest(f, body, ok)) && Goes(s, ok)
    ensures (exists g :: g in Written(s, ReadRequest(f, body, ok)) && g.busy) <==>
      f.kind == Dispatched && s.server.peerSet && |Holding(s.server)| == s.server.cap
  {
    var w := Written(s, ReadRequest(f, body, ok));
    if !TakesIn(s.server, f) {
      assert w[0] in w && w[0].busy == (f.kind == Dispatched && s.server.peerSet);
    }
  }
}
